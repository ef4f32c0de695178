/**
 Who may do what with an offer, and what it leaves behind, as one table. In every state that a run can reach the
 transactions follow the table exactly.
 */
module OfferRules {
  import opened Money
  import opened Offers
  import opened OfferSafety

  // --------------------------------------------------------------------------
  // When a step is allowed
  // --------------------------------------------------------------------------

  predicate InTime(o: Offer, now: int) {
    o.expiresAt.Some? ==> now < o.expiresAt.value
  }

  /** Either side may answer a selected bid; a counter is answered by the other side. */
  predicate Awaits(o: Offer, role: Role) {
    o.status == Selected || (o.status == Countered && o.counteredBy.Some? && o.counteredBy.value != role)
  }

  predicate NoLiveOrder(w: World) {
    forall k :: 0 <= k < |w.orders| ==> w.orders[k].status in {Cancelled, Completed}
  }

  /** The deal on the table is in time, in stock, not under the minimum, and the only one. */
  predicate CanBeOrdered(w: World, i: int, now: int)
    requires 0 <= i < |w.offers|
  {
    var o := w.offers[i];
    && IsLiveLeaf(w.offers, i) && InTime(o, now)
    && o.quantity <= w.listing.available && (w.listing.minUnitPrice.Some? ==> w.listing.minUnitPrice.value <= o.amount)
    && NoLiveOrder(w)
  }

  /** The slot is free, or the one live leaf looked at is this buyer's. */
  predicate SlotIsHis(w: World, i: int, found: int)
    requires 0 <= i < |w.offers|
  {
    (forall j :: 0 <= j < |w.offers| ==> !IsLiveLeaf(w.offers, j)) || (IsLiveLeaf(w.offers, found) && w.offers[found].buyer == w.offers[i].buyer)
  }

  predicate MayAnswer(w: World, step: Step, i: int)
    requires 0 <= i < |w.offers|
  {
    var o := w.offers[i];
    match step
    case Select(_, found, now) =>
      && o.status == Pending && InTime(o, now) && o.quantity <= w.listing.available + EPSILON
      && SlotIsHis(w, i, found) && NoLiveOrder(w)
    case AcceptSelected(_, now) => o.status == Selected && CanBeOrdered(w, i, now)
    case AcceptCounter(_, now) => o.status == Countered && Awaits(o, Buyer) && CanBeOrdered(w, i, now)
    case Accept(_, now) => Awaits(o, Seller) && CanBeOrdered(w, i, now)
    case ReCounter(_, price, _, now) => IsLeaf(w.offers, i) && Awaits(o, Buyer) && InTime(o, now) && 0 < price
    case Counter(_, price, _, now) => Awaits(o, Seller) && InTime(o, now) && 0 < price
    case Release(_) => IsLeaf(w.offers, i) && Awaits(o, Buyer)
    case Reject(_) => IsLiveLeaf(w.offers, i)
    case Withdraw(_) => IsLeaf(w.offers, i) && o.status == Pending
    case Expire(_, now) => !InTime(o, now)
    case AutoExpire(_, _, now) => !InTime(o, now) && o.status !in {Accepted, Rejected, Withdrawn, Expired}
    case _ => true
  }

  predicate MayMove(w: World, step: Step, k: int)
    requires 0 <= k < |w.orders|
  {
    var r := w.orders[k];
    match step
    case PayGoods(_) => r.status == Unpaid && w.listing.status != Sold && r.quantity <= w.listing.available
    case MoveOrder(_, status) =>
      (r.status == Unpaid && status == Underway) || (r.status == Underway && (status == Unpaid || status == Completed))
    case CancelUnpaid(_, _) => r.status == Unpaid
    case CancelUnderway(_) => r.status == Underway
    case _ => true
  }

  predicate IsOnOrder(step: Step) {
    step.PayGoods? || step.MoveOrder? || step.CancelUnpaid? || step.CancelUnderway?
  }

  predicate MayTake(w: World, step: Step) {
    if step.Create? then 0 < step.amount && 0.0 < step.quantity
    else if IsOnOrder(step) then 0 <= step.order < |w.orders| && MayMove(w, step, step.order)
    else 0 <= step.offer < |w.offers| && MayAnswer(w, step, step.offer)
  }

  lemma NoLiveOrderMeans(w: World)
    ensures HasLiveOrder(w.orders) <==> !NoLiveOrder(w)
  {
  }

  lemma AnswersIff(w: World, step: Step)
    requires RowsOk(w.offers) && !step.Create? && !IsOnOrder(step)
    ensures Try(w, step).Some? <==> MayTake(w, step)
  {
    NoLiveOrderMeans(w);
    if 0 <= step.offer < |w.offers| {
      assert RowOk(w.offers, step.offer);
    }
  }

  /** In every reachable state a step takes effect precisely when the table allows it. */
  lemma {:induction false} TakenIff(available: real, minUnitPrice: Option<int>, steps: seq<Step>, step: Step)
    ensures var w := After(Opening(available, minUnitPrice), steps); Try(w, step).Some? <==> MayTake(w, step)
  {
    RunsKeepInv(available, minUnitPrice, steps);
    if !step.Create? && !IsOnOrder(step) {
      AnswersIff(After(Opening(available, minUnitPrice), steps), step);
    }
  }

  // --------------------------------------------------------------------------
  // What a step leaves behind
  // --------------------------------------------------------------------------

  /** Offer i becomes o, and one more may be added; the others stay. */
  ghost predicate Rewrites(a: seq<Offer>, b: seq<Offer>, i: int, o: Offer, added: seq<Offer>) {
    && |b| == |a| + |added| && b[|a|..] == added
    && forall j :: 0 <= j < |a| ==> b[j] == if j == i then o else a[j]
  }

  ghost predicate OrderBecomes(a: seq<Order>, b: seq<Order>, k: int, status: OrderStatus) {
    |b| == |a| && forall j :: 0 <= j < |a| ==> b[j] == if j == k then a[j].(status := status) else a[j]
  }

  /** The waiting bid that is next: none that could be promoted offers more, none before it as much. */
  predicate IsNext(offers: seq<Offer>, k: int, available: real, now: int) {
    && 0 <= k < |offers| && MayBeNext(offers[k], available, now)
    && (forall j :: 0 <= j < |offers| && MayBeNext(offers[j], available, now) ==> offers[j].amount <= offers[k].amount)
    && (forall j :: 0 <= j < k && MayBeNext(offers[j], available, now) ==> offers[j].amount < offers[k].amount)
  }

  predicate MayBeNext(o: Offer, available: real, now: int) {
    o.status == Pending && InTime(o, now) && 0.0 < o.quantity && o.quantity <= available
  }

  /** Overdue bids expire; the next one, if there is one, enters the negotiation; if not, the listing is free. */
  ghost predicate IsPromotion(rest: World, v: World, now: int) {
    && v.orders == rest.orders && |v.offers| == |rest.offers|
    && (forall j :: 0 <= j < |rest.offers| ==>
         v.offers[j] ==
           if rest.offers[j].status == Pending && !InTime(rest.offers[j], now) then rest.offers[j].(status := Expired)
           else if IsNext(rest.offers, j, rest.listing.available, now) then rest.offers[j].(status := Selected, chosen := BySystem)
           else rest.offers[j])
    && v.listing == rest.listing.(status :=
         if exists k :: IsNext(rest.offers, k, rest.listing.available, now) then UnderNegotiation else Active)
  }

  /** The listing opens again exactly when no negotiation is left. */
  ghost predicate Frees(a: Listing, b: Listing, offers: seq<Offer>) {
    b == if exists j :: IsLiveLeaf(offers, j) then a else a.(status := Active)
  }

  ghost predicate CounterAdds(w: World, v: World, i: int, price: int, role: Role, expiry: Option<int>)
    requires 0 <= i < |w.offers|
  {
    var o := w.offers[i];
    Rewrites(w.offers, v.offers, i, o.(status := Countered),
      [Offer(o.buyer, price, o.quantity, Countered, Some(i), Some(price), Some(role), expiry, o.chosen)])
  }

  ghost predicate AnswerLeaves(w: World, step: Step, v: World, i: int)
    requires 0 <= i < |w.offers|
  {
    var o, a, b := w.offers[i], w.offers, v.offers;
    match step
    case Select(_, _, _) =>
      Rewrites(a, b, i, o.(status := Selected, chosen := BySeller), []) && v.listing == w.listing.(status := UnderNegotiation)
    case ReCounter(_, price, expiry, _) => CounterAdds(w, v, i, price, Buyer, expiry) && v.listing == w.listing
    case Counter(_, price, expiry, _) => CounterAdds(w, v, i, price, Seller, expiry) && v.listing == w.listing
    case Release(_) => Rewrites(a, b, i, o.(status := Withdrawn), []) && Frees(w.listing, v.listing, b)
    case Reject(_) => Rewrites(a, b, i, o.(status := Rejected), []) && Frees(w.listing, v.listing, b)
    case Withdraw(_) => Rewrites(a, b, i, o.(status := Withdrawn), []) && Frees(w.listing, v.listing, b)
    case Expire(_, _) => Rewrites(a, b, i, o.(status := Expired), []) && v.listing == w.listing
    case AutoExpire(_, false, _) => Rewrites(a, b, i, o.(status := Expired), []) && v.listing == w.listing
    case _ => true
  }

  /** What an answer leaves behind; for acceptances see AcceptanceMakesTheOrder. */
  lemma AnswerChanges(w: World, step: Step)
    requires Try(w, step).Some? && !step.Create? && !IsOnOrder(step) && !IsAcceptance(step)
    ensures AnswerLeaves(w, step, Next(w, step), step.offer)
    ensures Next(w, step).orders == w.orders
  {
    var b := Next(w, step).offers;
    assert HasLiveLeaf(b) <==> exists j :: IsLiveLeaf(b, j);
  }

  lemma BidChanges(w: World, step: Step)
    requires Try(w, step).Some? && step.Create?
    ensures var v := Next(w, step);
      && v.listing == w.listing && v.orders == w.orders
      && v.offers == w.offers + [Offer(step.buyer, step.amount, step.quantity, Pending, None, None, None, step.createExpiry, Nobody)]
  {
  }

  lemma AcceptanceChanges(w: World, step: Step)
    requires Try(w, step).Some? && IsAcceptance(step)
    ensures Rewrites(w.offers, Next(w, step).offers, step.offer, w.offers[step.offer].(status := Accepted), [])
    ensures Next(w, step).listing == w.listing
  {
  }

  lemma PromotionFollowsRule(rest: World, now: int)
    ensures IsPromotion(rest, Promote(rest, now), now)
  {
    var waiting, available := ExpireWaiting(rest.offers, now), rest.listing.available;
    var k := BestWaiting(waiting, |waiting|, available, now);
    forall j | 0 <= j < |waiting|
      ensures CanBePromoted(waiting[j], available, now) <==> MayBeNext(rest.offers[j], available, now)
      ensures MayBeNext(rest.offers[j], available, now) ==> waiting[j] == rest.offers[j]
    {
      assert waiting[j] == ExpireOne(rest.offers[j], now);
    }
    forall j ensures IsNext(rest.offers, j, available, now) <==> 0 <= k == j {
      if 0 <= k {
        assert MayBeNext(rest.offers[k], available, now);
      }
    }
  }

  /** The offer leaves the negotiation or the order is dropped, and then the next buyer is promoted. */
  lemma PromotingStepsFollowRule(w: World, step: Step)
    requires Try(w, step).Some? && Promotes(w, step)
    ensures var rest := BeforePromotion(w, step);
      && IsPromotion(rest, Next(w, step), step.now) && rest.listing == w.listing
      && (step.AutoExpire? ==>
           rest.orders == w.orders && Rewrites(w.offers, rest.offers, step.offer, w.offers[step.offer].(status := Expired), []))
      && (step.CancelUnpaid? ==>
           OrderBecomes(w.orders, rest.orders, step.order, Cancelled) && WithdrawsAgreed(w.offers, rest.offers, w.orders[step.order].offer))
  {
    PromotionFollowsRule(BeforePromotion(w, step), step.now);
  }

  /** The offer behind an order is withdrawn if it still is the accepted one. */
  ghost predicate WithdrawsAgreed(a: seq<Offer>, b: seq<Offer>, i: int) {
    |b| == |a| && forall j :: 0 <= j < |a| ==>
      b[j] == if j == i && a[j].status == Accepted then a[j].(status := Withdrawn) else a[j]
  }

  /** Goods that are paid leave the stock, and the last of them end every negotiation. */
  ghost predicate TakesFromStock(w: World, v: World, k: int)
    requires 0 <= k < |w.orders|
  {
    var left := w.listing.available - w.orders[k].quantity;
    && OrderBecomes(w.orders, v.orders, k, Underway)
    && v.listing == w.listing.(available := left, status := if left <= EPSILON then Sold else UnderNegotiation)
    && |v.offers| == |w.offers|
    && forall j :: 0 <= j < |w.offers| ==>
         v.offers[j] == if left <= EPSILON && !IsClosed(w.offers[j].status) then w.offers[j].(status := Rejected) else w.offers[j]
  }

  /** Goods that come back never make the stock more than it was listed with. */
  ghost predicate GivesBack(w: World, v: World, k: int)
    requires 0 <= k < |w.orders|
  {
    var back, all := v.listing.available, w.listing.available + w.orders[k].quantity;
    var waits := exists j :: 0 <= j < |w.offers| && w.offers[j].status in {Pending, Countered};
    && OrderBecomes(w.orders, v.orders, k, Cancelled) && v.offers == w.offers
    && back <= all && back <= w.listing.quantity && (back == all || back == w.listing.quantity)
    && v.listing == w.listing.(available := back, status :=
         if back <= EPSILON then Sold else if waits then UnderNegotiation else Active)
  }

  lemma OpenOrClosed(s: OfferStatus)
    ensures IsClosed(s) <==> s !in {Pending, Selected, Countered}
  {
    match s
    case Pending =>
    case _ =>
  }

  lemma OrderChanges(w: World, step: Step)
    requires Try(w, step).Some? && IsOnOrder(step) && !step.CancelUnpaid?
    ensures var v := Next(w, step);
      match step
      case PayGoods(k) => TakesFromStock(w, v, k)
      case MoveOrder(k, status) => OrderBecomes(w.orders, v.orders, k, status) && v.offers == w.offers && v.listing == w.listing
      case CancelUnderway(k) => GivesBack(w, v, k)
      case _ => true
  {
    if step.PayGoods? {
      var v, left := Next(w, step), w.listing.available - w.orders[step.order].quantity;
      assert v.offers == if left <= EPSILON then RejectOpen(w.offers) else w.offers;
      forall j | 0 <= j < |w.offers|
        ensures RejectOne(w.offers[j]) == if IsClosed(w.offers[j].status) then w.offers[j] else w.offers[j].(status := Rejected)
      {
        OpenOrClosed(w.offers[j].status);
      }
      assert left <= EPSILON ==> forall j :: 0 <= j < |w.offers| ==> v.offers[j] == RejectOne(w.offers[j]);
    }
  }
}
