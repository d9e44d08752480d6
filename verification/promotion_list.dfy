/** The promotion list (GET /api/promotions): every promotion, or with `activeOnly=true`
    only those switched on whose window holds the current time, newest first. The clock
    is a parameter; the discount conversion of the response changes no value here. */
module PromotionList {
  import opened Wrappers
  import opened Seqs
  import opened Schema
  import opened AuthUtils

  const ActiveOnlyFlag: string := "true"

  /** The `where` object: empty, or `isActive` with both window bounds at one instant. */
  datatype PromotionWhere = AllPromotions | ActiveAt(now: int)

  /** Builds `where`: only the exact text "true" turns the filter on. */
  method BuildPromotionWhere(activeOnly: Option<string>, now: int) returns (w: PromotionWhere)
    ensures w.ActiveAt? <==> activeOnly == Some(ActiveOnlyFlag)
    ensures w.ActiveAt? ==> w.now == now
  {
    w := AllPromotions;
    if activeOnly == Some(ActiveOnlyFlag) {
      w := ActiveAt(now);
    }
  }

  /** `isActive: true, startDate: { lte: now }, endDate: { gte: now }`: both bounds inclusive. */
  predicate Running(p: Promotion, now: int) {
    p.isActive && p.startDate <= now && now <= p.endDate
  }

  predicate PromotionMatches(w: PromotionWhere, p: Promotion) {
    w.AllPromotions? || Running(p, w.now)
  }

  function PromotionNewestFirst(p: Promotion): int { -p.createdAt }

  /** `findMany({ where, orderBy: { createdAt: "desc" } })`: the matching promotions, each as
      often as in the table, newest first. */
  function ListPromotions(promotions: seq<Promotion>, w: PromotionWhere): (r: seq<Promotion>)
    ensures forall x :: multiset(r)[x] == if PromotionMatches(w, x) then multiset(promotions)[x] else 0
    ensures forall i, j :: 0 <= i < j < |r| ==> r[i].createdAt >= r[j].createdAt
  {
    var r := SortBy(Filter(promotions, p => PromotionMatches(w, p)), PromotionNewestFirst);
    assert forall i, j :: 0 <= i < j < |r| ==> PromotionNewestFirst(r[i]) <= PromotionNewestFirst(r[j]);
    r
  }

  /** GET /api/promotions. */
  method PromotionsIndex(caller: Option<JwtPayload>, activeOnly: Option<string>, promotions: seq<Promotion>, now: int)
    returns (r: Result<seq<Promotion>>)
    ensures caller.None? ==> r == Err(HttpError(401, LoginRequired))
    ensures caller.Some? && activeOnly != Some(ActiveOnlyFlag) ==> r == Ok(ListPromotions(promotions, AllPromotions))
    ensures caller.Some? && activeOnly == Some(ActiveOnlyFlag) ==> r == Ok(ListPromotions(promotions, ActiveAt(now)))
  {
    var auth := RequireAuth(caller);
    if auth.Err? {
      return Err(auth.error);
    }
    var w := BuildPromotionWhere(activeOnly, now);
    r := Ok(ListPromotions(promotions, w));
  }

  /** Without the filter nothing is dropped: the list is the whole table, reordered. */
  lemma AllWithoutFilter(promotions: seq<Promotion>)
    ensures multiset(ListPromotions(promotions, AllPromotions)) == multiset(promotions)
    ensures |ListPromotions(promotions, AllPromotions)| == |promotions|
  {
    var r := ListPromotions(promotions, AllPromotions);
    assert multiset(r) == multiset(promotions);
    assert |multiset(r)| == |r|;
  }

  /** With the filter a promotion is listed exactly when it is switched on and the current
      time lies in its window, the start and end instants included. */
  lemma ActiveExactly(promotions: seq<Promotion>, now: int, p: Promotion)
    ensures p in ListPromotions(promotions, ActiveAt(now)) <==> p in promotions && Running(p, now)
  {
    var r := ListPromotions(promotions, ActiveAt(now));
    assert p in r <==> multiset(r)[p] > 0;
    assert p in promotions <==> multiset(promotions)[p] > 0;
  }
}
