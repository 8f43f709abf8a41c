/** The final sort of every recommendation list (src/scorer.py): `sorted` by the lower confidence
    bound, descending, as a function with the three properties that determine it. */
module Ranking {
  import opened Domain
  import opened Rows

  /** Put a recommendation after every one with at least its bound. */
  function Place(list: seq<Recommendation>, rec: Recommendation): seq<Recommendation> {
    if list == [] then [rec]
    else if list[0].hitRateLower >= rec.hitRateLower then [list[0]] + Place(list[1..], rec)
    else [rec] + list
  }

  function Ranked(list: seq<Recommendation>): seq<Recommendation> {
    if list == [] then [] else Place(Ranked(list[..|list| - 1]), list[|list| - 1])
  }

  ghost predicate Descending(list: seq<Recommendation>) {
    forall i, j :: 0 <= i < j < |list| ==> list[i].hitRateLower >= list[j].hitRateLower
  }

  /** The recommendations with this bound, in their order. */
  function WithBound(list: seq<Recommendation>, bound: real): seq<Recommendation> {
    if list == [] then []
    else (if list[0].hitRateLower == bound then [list[0]] else []) + WithBound(list[1..], bound)
  }

  lemma Regroup<T>(a: seq<T>, b: seq<T>, c: seq<T>)
    ensures (a + b) + c == a + (b + c)
  {
  }

  lemma {:induction false} WithBoundConcat(a: seq<Recommendation>, b: seq<Recommendation>, bound: real)
    ensures WithBound(a + b, bound) == WithBound(a, bound) + WithBound(b, bound)
  {
    if a == [] {
      assert a + b == b;
    } else {
      Rest(a, b);
      WithBoundConcat(a[1..], b, bound);
      Regroup(if a[0].hitRateLower == bound then [a[0]] else [], WithBound(a[1..], bound), WithBound(b, bound));
    }
  }

  lemma Rest<T>(a: seq<T>, b: seq<T>)
    requires a != []
    ensures (a + b)[0] == a[0] && (a + b)[1..] == a[1..] + b
  {
  }

  lemma {:induction false} NoneWithBound(list: seq<Recommendation>, bound: real)
    ensures WithBound(list, bound) == [] <==> forall rec <- list :: rec.hitRateLower != bound
  {
    if list != [] {
      NoneWithBound(list[1..], bound);
      assert list == [list[0]] + list[1..];
    }
  }

  lemma {:induction false} PlaceDescends(list: seq<Recommendation>, rec: Recommendation)
    requires Descending(list)
    ensures Descending(Place(list, rec)) && Place(list, rec) != []
    ensures Place(list, rec)[0] == if list != [] && list[0].hitRateLower >= rec.hitRateLower then list[0] else rec
  {
    hide Descending;
    TailDescends(list);
    if list != [] {
      if list[0].hitRateLower >= rec.hitRateLower {
        PlaceDescends(list[1..], rec);
        LeadDescends(list[0], Place(list[1..], rec));
      } else {
        LeadDescends(rec, list);
      }
    }
  }

  lemma TailDescends(list: seq<Recommendation>)
    ensures Descending(list) && list != [] ==> Descending(list[1..])
    ensures Descending(list) && |list| > 1 ==> list[0].hitRateLower >= list[1].hitRateLower
    ensures forall rec :: Descending([rec])
  {
  }

  lemma LeadDescends(rec: Recommendation, list: seq<Recommendation>)
    requires Descending(list) && list != [] && rec.hitRateLower >= list[0].hitRateLower
    ensures Descending([rec] + list)
  {
    assert forall j :: 0 <= j < |list| ==> list[0].hitRateLower >= list[j].hitRateLower;
  }

  lemma {:induction false} PlaceAdds(list: seq<Recommendation>, rec: Recommendation)
    ensures multiset(Place(list, rec)) == multiset(list) + multiset{rec}
  {
    if list != [] {
      assert list == [list[0]] + list[1..];
      if list[0].hitRateLower >= rec.hitRateLower {
        PlaceAdds(list[1..], rec);
      }
    }
  }

  lemma {:induction false} PlaceIsStable(list: seq<Recommendation>, rec: Recommendation, bound: real)
    requires Descending(list)
    ensures WithBound(Place(list, rec), bound) == WithBound(list, bound) + if rec.hitRateLower == bound then [rec]
            else []
  {
    hide Descending;
    TailDescends(list);
    if list == [] {
    } else if list[0].hitRateLower >= rec.hitRateLower {
      PlaceIsStable(list[1..], rec, bound);
      Rest([list[0]], Place(list[1..], rec));
      Regroup(if list[0].hitRateLower == bound then [list[0]] else [], WithBound(list[1..], bound),
              if rec.hitRateLower == bound then [rec] else []);
    } else {
      Rest([rec], list);
      if rec.hitRateLower == bound {
        AllBelow(list, bound);
      }
    }
  }

  lemma AllBelow(list: seq<Recommendation>, bound: real)
    requires Descending(list) && list != [] && list[0].hitRateLower < bound
    ensures WithBound(list, bound) == []
  {
    NoneWithBound(list, bound);
  }

  /** The ranking is descending, a permutation, and keeps equal bounds in their order. */
  lemma {:induction false} RankedIsStableSort(list: seq<Recommendation>)
    ensures Descending(Ranked(list))
    ensures multiset(Ranked(list)) == multiset(list)
    ensures forall bound :: WithBound(Ranked(list), bound) == WithBound(list, bound)
  {
    hide Descending, Place, WithBound;
    if list == [] {
      Nothing();
    } else {
      var front, last := list[..|list| - 1], list[|list| - 1];
      RankedIsStableSort(front);
      PlaceDescends(Ranked(front), last);
      PlaceAdds(Ranked(front), last);
      assert list == front + [last];
      forall bound
        ensures WithBound(Ranked(list), bound) == WithBound(list, bound)
      {
        PlaceIsStable(Ranked(front), last, bound);
        WithBoundConcat(front, [last], bound);
        One(last, bound);
      }
    }
  }

  lemma Nothing()
    ensures Descending([])
  {
  }

  lemma One(rec: Recommendation, bound: real)
    ensures WithBound([rec], bound) == if rec.hitRateLower == bound then [rec] else []
  {
  }

  lemma FirstWithBound(list: seq<Recommendation>)
    requires list != []
    ensures WithBound(list, list[0].hitRateLower) != [] && WithBound(list, list[0].hitRateLower)[0] == list[0]
  {
  }

  /** The head of a descending list carries the greatest bound that occurs. */
  lemma HeadsAgree(list: seq<Recommendation>, other: seq<Recommendation>)
    requires list != [] && Descending(list) && Descending(other)
    requires forall bound :: WithBound(list, bound) == WithBound(other, bound)
    ensures other != [] && other[0] == list[0]
  {
    hide WithBound;
    FirstWithBound(list);
    NoneWithBound(other, list[0].hitRateLower);
    FirstWithBound(other);
    NoneWithBound(list, other[0].hitRateLower);
  }

  lemma TailsAgree(list: seq<Recommendation>, other: seq<Recommendation>, bound: real)
    requires list != [] && other != [] && list[0] == other[0] && WithBound(list, bound) == WithBound(other, bound)
    ensures WithBound(list[1..], bound) == WithBound(other[1..], bound)
  {
    var a, b := WithBound(list[1..], bound), WithBound(other[1..], bound);
    if list[0].hitRateLower == bound {
      assert ([list[0]] + a)[1..] == a && ([list[0]] + b)[1..] == b;
    } else {
      assert [] + a == a && [] + b == b;
    }
  }

  /** There is no other list with those properties. */
  lemma {:induction false} RankingIsUnique(list: seq<Recommendation>, other: seq<Recommendation>)
    requires Descending(list) && Descending(other)
    requires forall bound :: WithBound(list, bound) == WithBound(other, bound)
    ensures list == other
  {
    hide Descending, WithBound;
    if list == [] {
      if other != [] {
        HeadsAgree(other, list);
      }
    } else {
      HeadsAgree(list, other);
      forall bound
        ensures WithBound(list[1..], bound) == WithBound(other[1..], bound)
      {
        TailsAgree(list, other, bound);
      }
      TailDescends(list);
      TailDescends(other);
      RankingIsUnique(list[1..], other[1..]);
      assert list == [list[0]] + list[1..] && other == [other[0]] + other[1..];
    }
  }

  /** Python's `list[:limit]`, where a negative limit counts from the end. */
  function Slice<T>(list: seq<T>, limit: int): seq<T> {
    var end := if limit < 0 then |list| + limit else limit;
    if end < 0 then [] else if end < |list| then list[..end] else list
  }

  /** The first `limit`, or all but the last -limit. */
  lemma SliceIs<T>(list: seq<T>, limit: int)
    ensures Slice(list, limit) <= list
    ensures |list| <= limit ==> Slice(list, limit) == list
    ensures 0 <= limit < |list| ==> |Slice(list, limit)| == limit
    ensures -|list| <= limit < 0 ==> |Slice(list, limit)| == |list| + limit
    ensures limit < -|list| ==> Slice(list, limit) == []
  {
  }

  lemma SameMembers(a: seq<Recommendation>, b: seq<Recommendation>)
    requires multiset(a) == multiset(b)
    ensures |a| == |b| && forall rec :: rec in a <==> rec in b
  {
    assert |multiset(a)| == |a| && |multiset(b)| == |b|;
    forall rec
      ensures rec in a <==> rec in b
    {
      assert rec in a <==> rec in multiset(a);
      assert rec in b <==> rec in multiset(b);
    }
  }

  /** What a cut ranking holds: nothing left out ranks above anything kept. */
  lemma CutKeepsBest(list: seq<Recommendation>, limit: int)
    ensures var kept := Slice(Ranked(list), limit);
            && Descending(kept)
            && (limit >= 0 ==> |kept| == if limit < |list| then limit else |list|)
            && (forall rec <- kept :: rec in list)
            && forall rec <- list :: rec !in kept ==> forall best <- kept :: best.hitRateLower >= rec.hitRateLower
  {
    hide Ranked, WithBound;
    RankedIsStableSort(list);
    var ranked, kept := Ranked(list), Slice(Ranked(list), limit);
    SameMembers(ranked, list);
    forall rec, best | rec in list && rec !in kept && best in kept
      ensures best.hitRateLower >= rec.hitRateLower
    {
      var i :| 0 <= i < |ranked| && ranked[i] == rec;
      var j :| 0 <= j < |kept| && kept[j] == best;
      assert ranked[j] == best && j < |kept| <= i;
    }
  }

  // ---- one entry per coin ------------------------------------------------------------------

  ghost predicate OnePerMarket(list: seq<Recommendation>) {
    forall i, j :: 0 <= i < j < |list| ==> list[i].market != list[j].market
  }

  lemma {:induction false} PlaceOnePerMarket(list: seq<Recommendation>, rec: Recommendation)
    requires OnePerMarket(list) && forall other <- list :: other.market != rec.market
    ensures OnePerMarket(Place(list, rec))
    ensures forall other <- Place(list, rec) :: other == rec || other in list
  {
    if list != [] && list[0].hitRateLower >= rec.hitRateLower {
      var rest := list[1..];
      assert forall other <- rest :: other in list && other.market != list[0].market;
      PlaceOnePerMarket(rest, rec);
      assert forall other <- Place(rest, rec) :: other.market != list[0].market;
    }
  }

  lemma {:induction false} RankedOnePerMarket(list: seq<Recommendation>)
    requires OnePerMarket(list)
    ensures OnePerMarket(Ranked(list))
    ensures forall rec <- Ranked(list) :: rec in list
  {
    hide Place;
    if list != [] {
      var front, last := list[..|list| - 1], list[|list| - 1];
      RankedOnePerMarket(front);
      PlaceOnePerMarket(Ranked(front), last);
    }
  }

  // ---- candidates -------------------------------------------------------------------------

  /** What each coin offers on its own record; an offer names its coin. */
  ghost predicate Named(own: string -> Option<Recommendation>) {
    forall market :: own(market).Some? ==> own(market).value.market == market
  }

  /** The offers of the candidates, in candidate order. */
  ghost function Collect(markets: seq<string>, own: string -> Option<Recommendation>): seq<Recommendation> {
    if markets == [] then []
    else Collect(markets[..|markets| - 1], own) + Listed(own(markets[|markets| - 1]))
  }

  function Listed(offer: Option<Recommendation>): seq<Recommendation> {
    if offer.Some? then [offer.value] else []
  }

  lemma {:induction false} Collected(markets: seq<string>, own: string -> Option<Recommendation>)
    requires Named(own)
    ensures forall rec <- Collect(markets, own) :: rec.market in markets && own(rec.market) == Some(rec)
    ensures forall market <- markets :: own(market).Some? ==> own(market).value in Collect(markets, own)
  {
    if markets != [] {
      Collected(markets[..|markets| - 1], own);
    }
  }

  ghost predicate Distinct(markets: seq<string>) {
    forall i, j :: 0 <= i < j < |markets| ==> markets[i] != markets[j]
  }

  lemma {:induction false} CollectedOnce(markets: seq<string>, own: string -> Option<Recommendation>)
    requires Named(own) && Distinct(markets)
    ensures OnePerMarket(Collect(markets, own))
  {
    if markets != [] {
      var front := markets[..|markets| - 1];
      CollectedOnce(front, own);
      Collected(front, own);
    }
  }

  /** What a track publishes: the ranking of the candidates' offers, cut at the limit. */
  ghost function Published(markets: seq<string>, own: string -> Option<Recommendation>, limit: int)
    : seq<Recommendation>
  {
    Slice(Ranked(Collect(markets, own)), limit)
  }

  /** A published list holds candidates' own offers, at most one per coin and at most `limit`. */
  lemma {:induction false} PublishedAreOwn(markets: seq<string>, own: string -> Option<Recommendation>, limit: int)
    requires Named(own)
    ensures forall rec <- Published(markets, own, limit) :: rec.market in markets && own(rec.market) == Some(rec)
    ensures Distinct(markets) ==> OnePerMarket(Published(markets, own, limit))
    ensures limit >= 0 ==> |Published(markets, own, limit)| <= limit
  {
    hide Collect, Descending, Ranked, Slice, OnePerMarket;
    var offers := Collect(markets, own);
    Collected(markets, own);
    CutKeepsBest(offers, limit);
    if Distinct(markets) {
      CollectedOnce(markets, own);
      RankedOnePerMarket(offers);
      SliceOnePerMarket(Ranked(offers), limit);
    }
  }

  /** It holds the best of them, best first; a candidate's offer is missing only if the list is full of
      offers at least as good. */
  lemma {:induction false} ListRanksBest(markets: seq<string>, own: string -> Option<Recommendation>, limit: int)
    requires Named(own)
    ensures Descending(Published(markets, own, limit))
    ensures forall market <- markets :: own(market).Some? && own(market).value !in Published(markets, own, limit) ==>
              && (limit >= 0 ==> |Published(markets, own, limit)| == limit)
              && forall rec <- Published(markets, own, limit) :: rec.hitRateLower >= own(market).value.hitRateLower
  {
    hide Collect, Descending, Ranked, Slice;
    var offers := Collect(markets, own);
    Collected(markets, own);
    CutKeepsBest(offers, limit);
    UncutKeepsAll(offers, limit);
  }

  lemma SliceOnePerMarket(list: seq<Recommendation>, limit: int)
    requires OnePerMarket(list)
    ensures OnePerMarket(Slice(list, limit))
  {
  }

  lemma UncutKeepsAll(list: seq<Recommendation>, limit: int)
    ensures 0 <= limit != |Slice(Ranked(list), limit)| ==> forall rec <- list :: rec in Slice(Ranked(list), limit)
  {
    hide Ranked;
    RankedIsStableSort(list);
    SameMembers(Ranked(list), list);
  }
}
