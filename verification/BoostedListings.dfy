/**
 The listing search: advertisements boost listings, boosted listings come first on page one, and the
 rest follow page by page. Listings and advertisements are known by their ids.
 */
module BoostedListings {
  import opened Money

  datatype AdKind = FeaturedListing | SponsoredSearch | TopOfCategory

  datatype Ad = Ad(id: int, listing: int, kind: AdKind)

  /** Whether the request names a category, and whether it searches by anything else. */
  datatype Search = Search(hasCategory: bool, hasFilter: bool)

  function BoostScore(k: AdKind): int {
    match k case FeaturedListing => 500 case TopOfCategory => 1000 case SponsoredSearch => 300
  }

  predicate IsEligible(ad: Ad, s: Search) {
    && (ad.kind == TopOfCategory ==> s.hasCategory)
    && (ad.kind == SponsoredSearch ==> s.hasFilter)
  }

  predicate Boosts(ad: Ad, s: Search, listing: int) {
    ad.listing == listing && IsEligible(ad, s)
  }

  /** The scores of the first n ads, added up for one listing. */
  function Rank(ads: seq<Ad>, n: int, s: Search, listing: int): int
    requires 0 <= n <= |ads|
  {
    if n == 0 then 0
    else Rank(ads, n - 1, s, listing) + if Boosts(ads[n - 1], s, listing) then BoostScore(ads[n - 1].kind) else 0
  }

  /** A top-of-category ad counts twice a featured one and a sponsored one least; each only where it applies. */
  lemma OneAdRanks(ad: Ad, s: Search)
    ensures var r := Rank([ad], 1, s, ad.listing);
      match ad.kind
      case TopOfCategory => r == if s.hasCategory then 1000 else 0
      case FeaturedListing => r == 500
      case SponsoredSearch => r == if s.hasFilter then 300 else 0
  {
    assert Rank([ad], 0, s, ad.listing) == 0;
  }

  ghost predicate IsBoosted(ads: seq<Ad>, n: int, s: Search, listing: int)
    requires 0 <= n <= |ads|
  {
    exists i :: 0 <= i < n && Boosts(ads[i], s, listing)
  }

  /** An eligible ad of the listing among the first n that none of them outscores. */
  ghost predicate IsBestAd(ads: seq<Ad>, n: int, s: Search, listing: int, id: int, score: int)
    requires 0 <= n <= |ads|
  {
    && (exists i :: 0 <= i < n && Boosts(ads[i], s, listing) && ads[i].id == id && BoostScore(ads[i].kind) == score)
    && (forall i :: 0 <= i < n && Boosts(ads[i], s, listing) ==> BoostScore(ads[i].kind) <= score)
  }

  function ScoreOf(rank: map<int, int>, id: int): int {
    if id in rank then rank[id] else 0
  }

  ghost predicate RanksOf(ads: seq<Ad>, n: int, s: Search, rank: map<int, int>)
    requires 0 <= n <= |ads|
  {
    && (forall l :: l in rank <==> IsBoosted(ads, n, s, l))
    && (forall l :: ScoreOf(rank, l) == Rank(ads, n, s, l))
  }

  ghost predicate BestAdsOf(ads: seq<Ad>, n: int, s: Search, ids: map<int, int>, scores: map<int, int>)
    requires 0 <= n <= |ads|
  {
    ids.Keys == scores.Keys && forall l :: BestAdOf(ads, n, s, ids, scores, l)
  }

  ghost predicate BestAdOf(ads: seq<Ad>, n: int, s: Search, ids: map<int, int>, scores: map<int, int>, l: int)
    requires 0 <= n <= |ads| && ids.Keys == scores.Keys
  {
    && (l in ids <==> IsBoosted(ads, n, s, l))
    && (l in ids ==> IsBestAd(ads, n, s, l, ids[l], scores[l]))
  }

  /** The loop over the active ads. */
  method RankBoosts(ads: seq<Ad>, s: Search)
    returns (boostRank: map<int, int>, boostAdId: map<int, int>)
    ensures forall l :: l in boostRank <==> IsBoosted(ads, |ads|, s, l)
    ensures forall l :: l in boostRank ==> boostRank[l] == Rank(ads, |ads|, s, l)
    ensures forall l :: l in boostAdId <==> IsBoosted(ads, |ads|, s, l)
    ensures forall l :: l in boostAdId ==> exists score :: IsBestAd(ads, |ads|, s, l, boostAdId[l], score)
  {
    boostRank, boostAdId := map[], map[];
    var boostPrimaryScore: map<int, int> := map[];
    for i := 0 to |ads|
      invariant RanksOf(ads, i, s, boostRank)
      invariant BestAdsOf(ads, i, s, boostAdId, boostPrimaryScore)
    {
      var ad := ads[i];
      if (ad.kind == TopOfCategory && !s.hasCategory) || (ad.kind == SponsoredSearch && !s.hasFilter) {
        SkippedAd(ads, i, s, boostRank, boostAdId, boostPrimaryScore);
        continue;
      }
      var score := BoostScore(ad.kind);
      var current := if ad.listing in boostRank then boostRank[ad.listing] else 0;
      RankOneMore(ads, i, s, boostRank);
      BestOneMore(ads, i, s, boostAdId, boostPrimaryScore);
      boostRank := boostRank[ad.listing := current + score];
      if ad.listing !in boostPrimaryScore || score > boostPrimaryScore[ad.listing] {
        boostPrimaryScore := boostPrimaryScore[ad.listing := score];
        boostAdId := boostAdId[ad.listing := ad.id];
      }
    }
    forall l | l in boostRank ensures boostRank[l] == Rank(ads, |ads|, s, l) {
      assert ScoreOf(boostRank, l) == Rank(ads, |ads|, s, l);
    }
    forall l ensures l in boostAdId <==> IsBoosted(ads, |ads|, s, l) {
      assert BestAdOf(ads, |ads|, s, boostAdId, boostPrimaryScore, l);
    }
    forall l | l in boostAdId ensures exists score :: IsBestAd(ads, |ads|, s, l, boostAdId[l], score) {
      assert BestAdOf(ads, |ads|, s, boostAdId, boostPrimaryScore, l);
    }
  }

  lemma BoostedOneMore(ads: seq<Ad>, n: int, s: Search, listing: int)
    requires 0 <= n < |ads|
    ensures IsBoosted(ads, n + 1, s, listing) <==> IsBoosted(ads, n, s, listing) || Boosts(ads[n], s, listing)
  {
  }

  lemma BestAdStays(ads: seq<Ad>, n: int, s: Search, listing: int, id: int, score: int)
    requires 0 <= n < |ads| && IsBestAd(ads, n, s, listing, id, score)
    requires Boosts(ads[n], s, listing) ==> BoostScore(ads[n].kind) <= score
    ensures IsBestAd(ads, n + 1, s, listing, id, score)
  {
    var i :| 0 <= i < n && Boosts(ads[i], s, listing) && ads[i].id == id && BoostScore(ads[i].kind) == score;
    assert 0 <= i < n + 1;
  }

  lemma SkippedAd(ads: seq<Ad>, n: int, s: Search, rank: map<int, int>, ids: map<int, int>, scores: map<int, int>)
    requires 0 <= n < |ads| && !IsEligible(ads[n], s)
    requires RanksOf(ads, n, s, rank) && BestAdsOf(ads, n, s, ids, scores)
    ensures RanksOf(ads, n + 1, s, rank) && BestAdsOf(ads, n + 1, s, ids, scores)
  {
    forall l ensures IsBoosted(ads, n + 1, s, l) <==> IsBoosted(ads, n, s, l) {
      BoostedOneMore(ads, n, s, l);
    }
    forall l ensures ScoreOf(rank, l) == Rank(ads, n + 1, s, l) {
      assert ScoreOf(rank, l) == Rank(ads, n, s, l);
    }
    var m := n + 1;
    forall l ensures BestAdOf(ads, m, s, ids, scores, l) {
      assert BestAdOf(ads, n, s, ids, scores, l);
      BoostedOneMore(ads, n, s, l);
      if l in ids {
        BestAdStays(ads, n, s, l, ids[l], scores[l]);
      }
    }
  }

  lemma RankOneMore(ads: seq<Ad>, n: int, s: Search, rank: map<int, int>)
    requires 0 <= n < |ads| && IsEligible(ads[n], s) && RanksOf(ads, n, s, rank)
    ensures var l := ads[n].listing;
      RanksOf(ads, n + 1, s, rank[l := ScoreOf(rank, l) + BoostScore(ads[n].kind)])
  {
    var after := rank[ads[n].listing := ScoreOf(rank, ads[n].listing) + BoostScore(ads[n].kind)];
    forall l ensures l in after <==> IsBoosted(ads, n + 1, s, l) {
      BoostedOneMore(ads, n, s, l);
    }
    forall l ensures ScoreOf(after, l) == Rank(ads, n + 1, s, l) {
      assert ScoreOf(rank, l) == Rank(ads, n, s, l);
    }
  }

  lemma NewBestAd(ads: seq<Ad>, n: int, s: Search, listing: int, ids: map<int, int>, scores: map<int, int>)
    requires 0 <= n < |ads| && Boosts(ads[n], s, listing) && BestAdsOf(ads, n, s, ids, scores)
    requires listing !in scores || BoostScore(ads[n].kind) > scores[listing]
    ensures IsBestAd(ads, n + 1, s, listing, ads[n].id, BoostScore(ads[n].kind))
  {
    assert 0 <= n < n + 1;
    assert BestAdOf(ads, n, s, ids, scores, listing);
  }

  lemma BestAdOfOneMore(ads: seq<Ad>, n: int, s: Search, ids: map<int, int>, scores: map<int, int>,
    newIds: map<int, int>, newScores: map<int, int>, l: int)
    requires 0 <= n < |ads| && IsEligible(ads[n], s) && BestAdsOf(ads, n, s, ids, scores)
    requires newIds.Keys == newScores.Keys
    requires var listing, score := ads[n].listing, BoostScore(ads[n].kind);
      if listing !in scores || score > scores[listing]
      then newIds == ids[listing := ads[n].id] && newScores == scores[listing := score]
      else newIds == ids && newScores == scores
    ensures BestAdOf(ads, n + 1, s, newIds, newScores, l)
  {
    assert BestAdOf(ads, n, s, ids, scores, l);
    BoostedOneMore(ads, n, s, l);
    if l == ads[n].listing && (l !in scores || BoostScore(ads[n].kind) > scores[l]) {
      NewBestAd(ads, n, s, l, ids, scores);
    } else if l in ids {
      BestAdStays(ads, n, s, l, ids[l], scores[l]);
    }
  }

  lemma BestOneMore(ads: seq<Ad>, n: int, s: Search, ids: map<int, int>, scores: map<int, int>)
    requires 0 <= n < |ads| && IsEligible(ads[n], s) && BestAdsOf(ads, n, s, ids, scores)
    ensures var l, score := ads[n].listing, BoostScore(ads[n].kind);
      if l !in scores || score > scores[l] then BestAdsOf(ads, n + 1, s, ids[l := ads[n].id], scores[l := score])
      else BestAdsOf(ads, n + 1, s, ids, scores)
  {
    var listing, score := ads[n].listing, BoostScore(ads[n].kind);
    var improves := listing !in scores || score > scores[listing];
    var newIds := if improves then ids[listing := ads[n].id] else ids;
    var newScores := if improves then scores[listing := score] else scores;
    var m := n + 1;
    forall l ensures BestAdOf(ads, m, s, newIds, newScores, l) {
      BestAdOfOneMore(ads, n, s, ids, scores, newIds, newScores, l);
    }
  }

  // --------------------------------------------------------------------------
  // Sorting by score
  // --------------------------------------------------------------------------

  /** In front of the first listing that does not score higher: equal scores keep their order. */
  function InsertByScore(id: int, sorted: seq<int>, rank: map<int, int>): seq<int> {
    if sorted == [] || ScoreOf(rank, sorted[0]) <= ScoreOf(rank, id) then [id] + sorted
    else [sorted[0]] + InsertByScore(id, sorted[1..], rank)
  }

  function SortByScore(ids: seq<int>, rank: map<int, int>): seq<int> {
    if ids == [] then [] else InsertByScore(ids[0], SortByScore(ids[1..], rank), rank)
  }

  ghost predicate NonIncreasing(ids: seq<int>, rank: map<int, int>) {
    forall i, j :: 0 <= i < j < |ids| ==> ScoreOf(rank, ids[j]) <= ScoreOf(rank, ids[i])
  }

  lemma {:induction false} InsertSorts(id: int, sorted: seq<int>, rank: map<int, int>)
    requires NonIncreasing(sorted, rank)
    ensures NonIncreasing(InsertByScore(id, sorted, rank), rank)
    ensures multiset(InsertByScore(id, sorted, rank)) == multiset(sorted) + multiset{id}
  {
    if sorted == [] || ScoreOf(rank, sorted[0]) <= ScoreOf(rank, id) {
      assert InsertByScore(id, sorted, rank) == [id] + sorted;
      PrependKeepsOrder(id, sorted, rank);
    } else {
      var rest := InsertByScore(id, sorted[1..], rank);
      InsertSorts(id, sorted[1..], rank);
      assert sorted == [sorted[0]] + sorted[1..];
      forall j | 0 <= j < |rest| ensures ScoreOf(rank, rest[j]) <= ScoreOf(rank, sorted[0]) {
        InsertedOrOld(id, sorted[1..], rest, j);
      }
      PrependKeepsOrder(sorted[0], rest, rank);
      assert InsertByScore(id, sorted, rank) == [sorted[0]] + rest;
    }
  }

  lemma PrependKeepsOrder(id: int, ids: seq<int>, rank: map<int, int>)
    requires NonIncreasing(ids, rank)
    requires forall j :: 0 <= j < |ids| ==> ScoreOf(rank, ids[j]) <= ScoreOf(rank, id)
    ensures NonIncreasing([id] + ids, rank)
    ensures multiset([id] + ids) == multiset(ids) + multiset{id}
  {
  }

  lemma InsertedOrOld(id: int, before: seq<int>, rest: seq<int>, j: int)
    requires multiset(rest) == multiset(before) + multiset{id} && 0 <= j < |rest|
    ensures rest[j] == id || rest[j] in before
  {
    assert rest[j] in multiset(rest);
  }

  lemma {:induction false} SortSorts(ids: seq<int>, rank: map<int, int>)
    ensures NonIncreasing(SortByScore(ids, rank), rank)
    ensures multiset(SortByScore(ids, rank)) == multiset(ids)
    ensures |SortByScore(ids, rank)| == |ids|
  {
    if ids != [] {
      SortSorts(ids[1..], rank);
      InsertSorts(ids[0], SortByScore(ids[1..], rank), rank);
      assert ids == [ids[0]] + ids[1..];
    }
    assert |multiset(SortByScore(ids, rank))| == |multiset(ids)|;
  }

  function WithScore(ids: seq<int>, rank: map<int, int>, score: int): seq<int> {
    if ids == [] then []
    else (if ScoreOf(rank, ids[0]) == score then [ids[0]] else []) + WithScore(ids[1..], rank, score)
  }

  lemma {:induction false} InsertIsStable(id: int, sorted: seq<int>, rank: map<int, int>, score: int)
    ensures WithScore(InsertByScore(id, sorted, rank), rank, score) ==
      (if ScoreOf(rank, id) == score then [id] else []) + WithScore(sorted, rank, score)
  {
    if sorted == [] || ScoreOf(rank, sorted[0]) <= ScoreOf(rank, id) {
      assert ([id] + sorted)[1..] == sorted;
    } else {
      InsertIsStable(id, sorted[1..], rank, score);
      var rest := InsertByScore(id, sorted[1..], rank);
      assert ([sorted[0]] + rest)[1..] == rest;
    }
  }

  /** Sorting is stable: listings of equal score stay in the order they came in. */
  lemma {:induction false} SortIsStable(ids: seq<int>, rank: map<int, int>, score: int)
    ensures WithScore(SortByScore(ids, rank), rank, score) == WithScore(ids, rank, score)
  {
    if ids != [] {
      SortIsStable(ids[1..], rank, score);
      InsertIsStable(ids[0], SortByScore(ids[1..], rank), rank, score);
    }
  }

  // --------------------------------------------------------------------------
  // Pages
  // --------------------------------------------------------------------------

  /** The matching listings, newest first, that are (or are not) boosted. */
  function Keep(ids: seq<int>, boosted: set<int>, wanted: bool): seq<int> {
    if ids == [] then []
    else if (ids[0] in boosted) == wanted then [ids[0]] + Keep(ids[1..], boosted, wanted)
    else Keep(ids[1..], boosted, wanted)
  }

  function Min(a: int, b: int): int {
    if a <= b then a else b
  }

  function Max(a: int, b: int): int {
    if a <= b then b else a
  }

  function Take(limit: int): int {
    Min(Max(limit, 1), 50)
  }

  /** A query's skip and take. */
  function Window(ids: seq<int>, skip: int, take: int): (r: seq<int>)
    requires 0 <= skip && 0 <= take
    ensures |r| <= take
  {
    if |ids| <= skip then [] else ids[skip..Min(skip + take, |ids|)]
  }

  function Page(ids: seq<int>, rank: map<int, int>, take: int, page: int): seq<int>
    requires 1 <= take && 1 <= page
  {
    var normal := Keep(ids, rank.Keys, false);
    if page == 1 && rank != map[] then
      var boosted := Window(Keep(ids, rank.Keys, true), 0, take);
      SortByScore(boosted, rank) + Window(normal, 0, Max(take - |boosted|, 0))
    else
      Window(normal, Max((page - 1) * take - |rank|, 0), take)
  }

  function TotalPages(total: int, take: int): (n: int)
    requires 0 <= total && 1 <= take
    ensures 0 <= n
  {
    (total + take - 1) / take
  }

  /** Pages 1 to n, joined. */
  function Joined(ids: seq<int>, rank: map<int, int>, take: int, n: int): seq<int>
    requires 1 <= take && 0 <= n
    decreases n
  {
    if n == 0 then [] else Joined(ids, rank, take, n - 1) + Page(ids, rank, take, n)
  }

  ghost predicate Distinct(ids: seq<int>) {
    forall i, j :: 0 <= i < j < |ids| ==> ids[i] != ids[j]
  }

  /** The boosted listings are among the matching ones: ads are looked up under the same filter. */
  ghost predicate BoostsMatch(ids: seq<int>, rank: map<int, int>) {
    forall l :: l in rank ==> l in ids
  }

  lemma {:induction false} KeepSplits(ids: seq<int>, boosted: set<int>)
    ensures multiset(Keep(ids, boosted, true)) + multiset(Keep(ids, boosted, false)) == multiset(ids)
    ensures forall x :: x in Keep(ids, boosted, true) ==> x in boosted
    ensures forall x :: x in Keep(ids, boosted, false) ==> x !in boosted
    ensures |Keep(ids, boosted, true)| + |Keep(ids, boosted, false)| == |ids|
  {
    if ids != [] {
      KeepSplits(ids[1..], boosted);
      assert ids == [ids[0]] + ids[1..];
    }
  }

  lemma {:induction false} KeepCounts(ids: seq<int>, boosted: set<int>)
    requires Distinct(ids) && forall x :: x in boosted ==> x in ids
    ensures |Keep(ids, boosted, true)| == |boosted|
    decreases |ids|
  {
    if ids == [] {
      assert forall x :: x in boosted ==> x in ids;
      assert forall x :: x !in boosted;
      assert boosted == {};
    } else {
      var first, rest := ids[0], boosted - {ids[0]};
      assert ids == [first] + ids[1..];
      forall x | x in rest ensures x in ids[1..] {
        assert x in ids && x != first;
      }
      KeepCounts(ids[1..], rest);
      SameKeep(ids[1..], boosted, rest, first);
      OneFewer(boosted, first);
    }
  }

  lemma OneFewer(boosted: set<int>, x: int)
    ensures |boosted - {x}| == |boosted| - if x in boosted then 1 else 0
  {
    if x !in boosted {
      assert boosted - {x} == boosted;
    }
  }

  lemma {:induction false} SameKeep(ids: seq<int>, a: set<int>, b: set<int>, x: int)
    requires x !in ids && b == a - {x}
    ensures Keep(ids, a, true) == Keep(ids, b, true)
  {
    if ids != [] {
      SameKeep(ids[1..], a, b, x);
    }
  }

  /** The whole list that the pages are windows of. */
  function Everything(ids: seq<int>, rank: map<int, int>): seq<int> {
    SortByScore(Keep(ids, rank.Keys, true), rank) + Keep(ids, rank.Keys, false)
  }

  /** What comes earlier in `out` comes earlier in `ids`. */
  ghost predicate SameOrder(ids: seq<int>, out: seq<int>) {
    forall i, j, p, q :: 0 <= i < j < |out| && 0 <= p < |ids| && 0 <= q < |ids| && out[i] == ids[p] && out[j] == ids[q] ==> p < q
  }

  /** Listings that are (or are not) boosted keep their order among themselves: the newest first. */
  lemma {:induction false} KeepKeepsOrder(ids: seq<int>, boosted: set<int>, wanted: bool)
    requires Distinct(ids)
    ensures SameOrder(ids, Keep(ids, boosted, wanted))
  {
    if ids != [] {
      var rest, out, kept := ids[1..], Keep(ids, boosted, wanted), Keep(ids[1..], boosted, wanted);
      KeepKeepsOrder(rest, boosted, wanted);
      KeepIsDistinct(rest, boosted, wanted);
      var skipped := |out| - |kept|;
      forall i, j, p, q | 0 <= i < j < |out| && 0 <= p < |ids| && 0 <= q < |ids| && out[i] == ids[p] && out[j] == ids[q]
        ensures p < q
      {
        assert out[j] == kept[j - skipped] && kept[j - skipped] in kept;
        assert out[j] in rest;
        if skipped <= i {
          assert out[i] == kept[i - skipped] && kept[i - skipped] in kept;
          assert out[i] in rest;
          assert rest[p - 1] == ids[p] && rest[q - 1] == ids[q];
        }
      }
    }
  }

  lemma BoostedCount(ids: seq<int>, rank: map<int, int>)
    requires Distinct(ids) && BoostsMatch(ids, rank)
    ensures |Keep(ids, rank.Keys, true)| == |rank| == |SortByScore(Keep(ids, rank.Keys, true), rank)|
    ensures |Everything(ids, rank)| == |ids|
  {
    KeepCounts(ids, rank.Keys);
    assert |rank.Keys| == |rank|;
    SortSorts(Keep(ids, rank.Keys, true), rank);
    KeepSplits(ids, rank.Keys);
  }

  /** While boosted listings fit on one page, every page is the next window of that list. */
  lemma {:induction false} PageIsWindow(ids: seq<int>, rank: map<int, int>, take: int, page: int)
    requires Distinct(ids) && BoostsMatch(ids, rank) && 1 <= take && 1 <= page && |rank| <= take
    ensures 0 <= (page - 1) * take
    ensures Page(ids, rank, take, page) == Window(Everything(ids, rank), (page - 1) * take, take)
  {
    BoostedCount(ids, rank);
    if page == 1 {
      FirstPageIsWindow(ids, rank, take);
    } else {
      FirstPageIsFull(page, take);
      WindowBeyond(SortByScore(Keep(ids, rank.Keys, true), rank), Keep(ids, rank.Keys, false), (page - 1) * take, take);
    }
  }

  lemma FirstPageIsWindow(ids: seq<int>, rank: map<int, int>, take: int)
    requires |Keep(ids, rank.Keys, true)| == |rank| == |SortByScore(Keep(ids, rank.Keys, true), rank)|
    requires 1 <= take && |rank| <= take
    ensures Page(ids, rank, take, 1) == Window(Everything(ids, rank), 0, take)
  {
    var boosted, normal := Keep(ids, rank.Keys, true), Keep(ids, rank.Keys, false);
    assert Window(boosted, 0, take) == boosted;
    WindowAcross(SortByScore(boosted, rank), normal, take);
    if rank == map[] {
      assert SortByScore(boosted, rank) == [];
    }
  }

  lemma WindowAcross(a: seq<int>, b: seq<int>, take: int)
    requires |a| <= take
    ensures Window(a + b, 0, take) == a + Window(b, 0, take - |a|)
  {
  }

  lemma FirstPageIsFull(page: int, take: int)
    requires 1 < page && 1 <= take
    ensures take <= (page - 1) * take
  {
  }

  lemma WindowBeyond(a: seq<int>, b: seq<int>, skip: int, take: int)
    requires |a| <= skip && 0 <= take
    ensures Window(a + b, skip, take) == Window(b, skip - |a|, take)
  {
  }

  lemma NextWindow(all: seq<int>, skip: int, take: int)
    requires 0 <= skip && 0 <= take
    ensures Window(all, 0, skip) + Window(all, skip, take) == Window(all, 0, skip + take)
  {
  }

  lemma {:induction false} JoinedIsPrefix(ids: seq<int>, rank: map<int, int>, take: int, n: int)
    requires Distinct(ids) && BoostsMatch(ids, rank) && 1 <= take && 0 <= n && |rank| <= take
    ensures 0 <= n * take
    ensures Joined(ids, rank, take, n) == Window(Everything(ids, rank), 0, n * take)
    decreases n
  {
    if n != 0 {
      JoinedIsPrefix(ids, rank, take, n - 1);
      PageIsWindow(ids, rank, take, n);
      assert (n - 1) * take + take == n * take;
      NextWindow(Everything(ids, rank), (n - 1) * take, take);
    }
  }

  lemma PagesCover(total: int, take: int)
    requires 0 <= total && 1 <= take
    ensures total <= TotalPages(total, take) * take
  {
    var q := TotalPages(total, take);
    assert total + take - 1 == q * take + (total + take - 1) % take;
  }

  /** The list starts with the boosted listings by falling score; all the others follow; nothing is lost. */
  lemma EverythingIsOrdered(ids: seq<int>, rank: map<int, int>)
    requires Distinct(ids) && BoostsMatch(ids, rank)
    ensures |Everything(ids, rank)| == |ids| && |rank| <= |ids|
    ensures multiset(Everything(ids, rank)) == multiset(ids)
    ensures NonIncreasing(Everything(ids, rank)[..|rank|], rank)
    ensures forall i :: 0 <= i < |ids| ==> (Everything(ids, rank)[i] in rank <==> i < |rank|)
    ensures SameOrder(ids, Everything(ids, rank)[|rank|..])
  {
    KeepKeepsOrder(ids, rank.Keys, false);
    BoostedCount(ids, rank);
    KeepSplits(ids, rank.Keys);
    var boosted, normal := Keep(ids, rank.Keys, true), Keep(ids, rank.Keys, false);
    SortSorts(boosted, rank);
    OneThenTheOther(SortByScore(boosted, rank), boosted, normal, rank.Keys);
  }

  /** A rearrangement of `inside`, all in the set, followed by what is all outside it. */
  lemma OneThenTheOther(first: seq<int>, inside: seq<int>, outside: seq<int>, members: set<int>)
    requires multiset(first) == multiset(inside) && |first| == |inside|
    requires (forall x :: x in inside ==> x in members) && forall x :: x in outside ==> x !in members
    ensures var all := first + outside;
      && multiset(all) == multiset(inside) + multiset(outside)
      && all[..|inside|] == first
      && forall i :: 0 <= i < |all| ==> (all[i] in members <==> i < |inside|)
  {
    var all := first + outside;
    forall i | 0 <= i < |all| ensures all[i] in members <==> i < |inside| {
      if i < |first| {
        assert all[i] == first[i] && first[i] in multiset(first);
        assert first[i] in multiset(inside);
        assert all[i] in inside;
      } else {
        assert all[i] == outside[i - |first|];
        assert all[i] in outside;
      }
    }
  }

  /** Joined, the pages are that list. */
  lemma PagesAreEverything(ids: seq<int>, rank: map<int, int>, take: int)
    requires Distinct(ids) && BoostsMatch(ids, rank) && 1 <= take && |rank| <= take
    ensures Joined(ids, rank, take, TotalPages(|ids|, take)) == Everything(ids, rank)
  {
    PagesCover(|ids|, take);
    JoinedIsPrefix(ids, rank, take, TotalPages(|ids|, take));
    BoostedCount(ids, rank);
  }

  // --------------------------------------------------------------------------
  // When boosted listings do not fit on one page
  // --------------------------------------------------------------------------

  lemma {:induction false} KeepIsDistinct(ids: seq<int>, boosted: set<int>, wanted: bool)
    requires Distinct(ids)
    ensures Distinct(Keep(ids, boosted, wanted))
    ensures forall x :: x in Keep(ids, boosted, wanted) ==> x in ids
  {
    if ids != [] {
      var rest := Keep(ids[1..], boosted, wanted);
      KeepIsDistinct(ids[1..], boosted, wanted);
      forall j | 0 <= j < |rest| ensures rest[j] in ids && rest[j] != ids[0] {
        assert rest[j] in rest;
        assert rest[j] in ids[1..];
        var i :| 0 <= i < |ids[1..]| && ids[1..][i] == rest[j];
        assert ids[i + 1] == rest[j];
      }
      if (ids[0] in boosted) == wanted {
        assert Keep(ids, boosted, wanted) == [ids[0]] + rest;
      }
    }
  }

  lemma LaterPagesAreNormal(ids: seq<int>, rank: map<int, int>, take: int, page: int, x: int)
    requires 1 <= take && 1 < page && x in rank
    ensures x !in Page(ids, rank, take, page)
  {
    KeepSplits(ids, rank.Keys);
    assert x !in Keep(ids, rank.Keys, false);
  }

  lemma FirstPageIsTooShort(ids: seq<int>, rank: map<int, int>, take: int)
    requires Distinct(ids) && 1 <= take < |Keep(ids, rank.Keys, true)| && rank != map[]
    ensures Keep(ids, rank.Keys, true)[take] !in Page(ids, rank, take, 1)
  {
    var boosted := Keep(ids, rank.Keys, true);
    KeepIsDistinct(ids, rank.Keys, true);
    var first := Window(boosted, 0, take);
    assert first == boosted[..take];
    assert boosted[take] !in first;
    SortSorts(first, rank);
    assert boosted[take] !in multiset(first);
    assert boosted[take] !in multiset(SortByScore(first, rank));
  }

  /** The boosted listing that is one too many for page one is on no page at all. */
  lemma {:induction false} CrowdedOut(ids: seq<int>, rank: map<int, int>, take: int, n: int)
    requires Distinct(ids) && BoostsMatch(ids, rank) && 1 <= take && 0 <= n && take < |rank|
    ensures |Keep(ids, rank.Keys, true)| == |rank|
    ensures Keep(ids, rank.Keys, true)[take] !in Joined(ids, rank, take, n)
    decreases n
  {
    BoostedCount(ids, rank);
    var lost := Keep(ids, rank.Keys, true)[take];
    if n != 0 {
      CrowdedOut(ids, rank, take, n - 1);
      CrowdedOutOfPage(ids, rank, take, n);
      NotInEither(Joined(ids, rank, take, n - 1), Page(ids, rank, take, n), lost);
    }
  }

  lemma NotInEither(a: seq<int>, b: seq<int>, x: int)
    requires x !in a && x !in b
    ensures x !in a + b
  {
  }

  lemma CrowdedOutOfPage(ids: seq<int>, rank: map<int, int>, take: int, page: int)
    requires Distinct(ids) && 1 <= take < |Keep(ids, rank.Keys, true)| && 1 <= page && rank != map[]
    ensures Keep(ids, rank.Keys, true)[take] !in Page(ids, rank, take, page)
  {
    if page == 1 {
      FirstPageIsTooShort(ids, rank, take);
    } else {
      var lost := Keep(ids, rank.Keys, true)[take];
      KeepSplits(ids, rank.Keys);
      assert lost in Keep(ids, rank.Keys, true);
      LaterPagesAreNormal(ids, rank, take, page, lost);
    }
  }

  /** All pages together hold the matching listings, each exactly once. */
  ghost predicate PagesPartition(ids: seq<int>, rank: map<int, int>, take: int)
    requires 1 <= take
  {
    multiset(Joined(ids, rank, take, TotalPages(|ids|, take))) == multiset(ids)
  }

  /** The pages show every matching listing exactly once if and only if the boosted ones fit on one page. */
  lemma {:induction false} PagesPartitionIff(ids: seq<int>, rank: map<int, int>, take: int)
    requires Distinct(ids) && BoostsMatch(ids, rank) && 1 <= take
    ensures PagesPartition(ids, rank, take) <==> |rank| <= take
  {
    if |rank| <= take {
      PagesAreEverything(ids, rank, take);
      EverythingIsOrdered(ids, rank);
    } else {
      CrowdedOut(ids, rank, take, TotalPages(|ids|, take));
      KeepIsDistinct(ids, rank.Keys, true);
      var lost := Keep(ids, rank.Keys, true)[take];
      assert lost in Keep(ids, rank.Keys, true);
      assert lost in multiset(ids);
      assert lost !in multiset(Joined(ids, rank, take, TotalPages(|ids|, take)));
    }
  }

  /** Whatever limit is asked for, a page holds between one and fifty listings. */
  lemma PageSizes(ids: seq<int>, rank: map<int, int>, limit: int, page: int)
    requires 1 <= page
    ensures 1 <= Take(limit) <= 50 && (1 <= limit <= 50 ==> Take(limit) == limit)
    ensures (limit < 1 ==> Take(limit) == 1) && (50 < limit ==> Take(limit) == 50)
    ensures |Page(ids, rank, Take(limit), page)| <= Take(limit)
  {
    SortSorts(Window(Keep(ids, rank.Keys, true), 0, Take(limit)), rank);
  }
}
