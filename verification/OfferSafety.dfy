/** What every run of offers on a listing keeps, and what the unguarded steps can break. */
module OfferSafety {
  import opened Money
  import opened Offers
  import PR = PriceReviews

  // --------------------------------------------------------------------------
  // Rows
  // --------------------------------------------------------------------------

  ghost predicate RowOk(offers: seq<Offer>, i: int)
    requires 0 <= i < |offers|
  {
    var o := offers[i];
    && 0 < o.amount && 0.0 < o.quantity
    && (o.counterAmount.Some? ==> 0 < o.counterAmount.value)
    && (o.status in {Pending, Selected} ==> o.counterAmount == None && o.parent == None && !HasChild(offers, i))
    && (o.status == Pending ==> o.chosen == Nobody)
    && (o.status == Selected ==> o.chosen != Nobody)
    && (o.counteredBy.Some? <==> o.parent.Some?)
    && (o.parent.Some? ==>
         o.counterAmount == Some(o.amount) && 0 <= o.parent.value < i && offers[o.parent.value].buyer == o.buyer)
  }

  ghost predicate RowsOk(offers: seq<Offer>) {
    forall i :: 0 <= i < |offers| ==> RowOk(offers, i)
  }

  /** All live leaves of the listing belong to one buyer. */
  ghost predicate OneBuyer(offers: seq<Offer>) {
    forall i, j :: IsLiveLeaf(offers, i) && IsLiveLeaf(offers, j) ==> offers[i].buyer == offers[j].buyer
  }

  /** An active listing has no live leaf. */
  ghost predicate ActiveIsIdle(w: World) {
    w.listing.status == Active ==> forall i :: !IsLiveLeaf(w.offers, i)
  }

  ghost predicate Exclusive(w: World) {
    OneBuyer(w.offers) && ActiveIsIdle(w)
  }

  ghost predicate OneLiveOrder(orders: seq<Order>) {
    forall i, j :: 0 <= i < |orders| && 0 <= j < |orders| && IsLiveOrder(orders[i]) && IsLiveOrder(orders[j]) ==> i == j
  }

  /** The nearest whole cent, halves up. */
  predicate IsRounded(cents: int, exact: real) {
    cents as real - 0.5 <= exact < cents as real + 0.5
  }

  ghost predicate OrderOk(w: World, k: int)
    requires 0 <= k < |w.orders|
  {
    var r := w.orders[k];
    && 0 < r.unitPrice && 0.0 < r.quantity
    && AtLeastMinimum(w.listing, r.unitPrice)
    && IsRounded(r.total, r.unitPrice as real * r.quantity)
    && 0 <= r.offer < |w.offers| && w.offers[r.offer].buyer == r.buyer && w.offers[r.offer].quantity == r.quantity
  }

  ghost predicate Inv(w: World) {
    && RowsOk(w.offers)
    && OneLiveOrder(w.orders)
    && (forall k :: 0 <= k < |w.orders| ==> OrderOk(w, k))
  }

  // --------------------------------------------------------------------------
  // The ways the rows change
  // --------------------------------------------------------------------------

  ghost predicate SameRow(a: Offer, b: Offer) {
    b == a.(status := b.status, chosen := b.chosen)
  }

  ghost predicate Relabels(a: seq<Offer>, b: seq<Offer>) {
    |a| == |b| && forall i :: 0 <= i < |a| ==> SameRow(a[i], b[i])
  }

  lemma ChildrenKept(a: seq<Offer>, b: seq<Offer>, i: int)
    requires Relabels(a, b)
    ensures HasChild(a, i) <==> HasChild(b, i)
  {
    if HasChild(a, i) {
      var j :| 0 <= j < |a| && a[j].parent == Some(i);
      assert SameRow(a[j], b[j]) && b[j].parent == Some(i);
    }
    if HasChild(b, i) {
      var j :| 0 <= j < |b| && b[j].parent == Some(i);
      assert SameRow(a[j], b[j]) && a[j].parent == Some(i);
    }
  }

  predicate IsClosed(s: OfferStatus) {
    s in {Accepted, Rejected, Withdrawn, Expired}
  }

  /** Statuses stay or close, except that a waiting bid k may be selected. */
  ghost predicate Settles(a: seq<Offer>, b: seq<Offer>, k: int) {
    && Relabels(a, b)
    && (forall i :: 0 <= i < |a| && i != k ==> a[i] == b[i] || (IsClosed(b[i].status) && a[i].chosen == b[i].chosen))
    && (0 <= k < |a| ==> a[k].status == Pending && b[k].status == Selected && b[k].chosen != Nobody)
  }

  lemma SettlingKeepsRows(a: seq<Offer>, b: seq<Offer>, k: int)
    requires RowsOk(a) && Settles(a, b, k)
    ensures RowsOk(b)
  {
    forall i | 0 <= i < |b| ensures RowOk(b, i) {
      assert RowOk(a, i) && SameRow(a[i], b[i]);
      ChildrenKept(a, b, i);
      if a[i].parent.Some? {
        assert SameRow(a[a[i].parent.value], b[a[i].parent.value]);
      }
    }
  }

  /** The live leaves after settling were live leaves before, or are the bid selected. */
  lemma SettlingLeaves(a: seq<Offer>, b: seq<Offer>, k: int, i: int)
    requires Settles(a, b, k) && IsLiveLeaf(b, i)
    ensures i == k || IsLiveLeaf(a, i)
    ensures SameRow(a[i], b[i])
  {
    ChildrenKept(a, b, i);
  }

  lemma AppendedChild(a: seq<Offer>, o: Offer, i: int)
    ensures HasChild(a + [o], i) <==> HasChild(a, i) || o.parent == Some(i)
  {
    var b := a + [o];
    if HasChild(a, i) {
      var j :| 0 <= j < |a| && a[j].parent == Some(i);
      assert b[j].parent == Some(i);
    }
    if o.parent == Some(i) {
      assert b[|a|].parent == Some(i);
    }
  }

  lemma NobodyRefersAhead(offers: seq<Offer>, i: int)
    requires RowsOk(offers) && |offers| <= i
    ensures !HasChild(offers, i)
  {
    forall j | 0 <= j < |offers| ensures offers[j].parent != Some(i) {
      assert RowOk(offers, j);
    }
  }

  lemma BidKeepsRows(a: seq<Offer>, o: Offer)
    requires RowsOk(a) && o.status == Pending && o.parent == None && o.counterAmount == None && o.counteredBy == None
    requires 0 < o.amount && 0.0 < o.quantity && o.chosen == Nobody
    ensures RowsOk(a + [o])
    ensures forall i :: IsLiveLeaf(a + [o], i) <==> IsLiveLeaf(a, i)
  {
    var b := a + [o];
    NobodyRefersAhead(a, |a|);
    forall i ensures HasChild(b, i) <==> HasChild(a, i) {
      AppendedChild(a, o, i);
    }
    forall i | 0 <= i < |b| ensures RowOk(b, i) {
      if i < |a| {
        assert RowOk(a, i);
      }
    }
  }

  lemma CounterKeepsRows(w: World, i: int, price: int, role: Role, expiry: Option<int>)
    requires RowsOk(w.offers) && 0 <= i < |w.offers| && IsLive(w.offers[i]) && 0 < price
    ensures RowsOk(AddCounter(w, i, price, role, expiry).offers)
    ensures var b := AddCounter(w, i, price, role, expiry).offers;
      forall j :: IsLiveLeaf(b, j) <==> j == |w.offers| || (j != i && IsLiveLeaf(w.offers, j))
  {
    var a := w.offers;
    var m := SetStatus(a, i, Countered);
    var child := ChildOf(a[i], i, price, role, expiry);
    var b := m + [child];
    NobodyRefersAhead(a, |a|);
    forall j ensures HasChild(b, j) <==> HasChild(a, j) || j == i {
      ChildrenKept(a, m, j);
      AppendedChild(m, child, j);
    }
    forall j | 0 <= j < |b| ensures RowOk(b, j) {
      assert RowOk(a, i);
      if j < |a| {
        assert RowOk(a, j);
      }
    }
  }

  // --------------------------------------------------------------------------
  // What each step does to the offers
  // --------------------------------------------------------------------------

  predicate IsAcceptance(step: Step) {
    step.AcceptSelected? || step.AcceptCounter? || step.Accept?
  }

  predicate IsCounter(step: Step) {
    step.ReCounter? || step.Counter?
  }

  /** Whether a step ends by promoting a waiting buyer, and the rows it promotes from. */
  predicate Promotes(w: World, step: Step) {
    (step.AutoExpire? && step.wasSelected && 0 <= step.offer < |w.offers|) ||
    (step.CancelUnpaid? && 0 <= step.order < |w.orders|)
  }

  function BeforePromotion(w: World, step: Step): World
    requires Promotes(w, step)
  {
    if step.AutoExpire? then Expiring(w, step.offer) else Unpicking(w, step.order)
  }

  /** The bid that promotion picks, or -1. */
  function Picked(w: World, now: int): int {
    BestWaiting(ExpireWaiting(w.offers, now), |w.offers|, w.listing.available, now)
  }

  /** The waiting bid that a step moves into negotiation, or -1. */
  function Chosen(w: World, step: Step): int {
    if step.Select? then step.offer
    else if Promotes(w, step) then Picked(BeforePromotion(w, step), step.now) else -1
  }

  lemma StepSettles(w: World, step: Step)
    requires RowsOk(w.offers) && Try(w, step).Some? && !step.Create? && !IsCounter(step)
    ensures Settles(w.offers, Next(w, step).offers, Chosen(w, step))
  {
    if Promotes(w, step) {
      assert Next(w, step) == Promote(BeforePromotion(w, step), step.now);
      PromotionSettles(w.offers, BeforePromotion(w, step), step.now);
    } else if IsAcceptance(step) {
      AcceptanceSettles(w, step);
    }
  }

  lemma AcceptanceSettles(w: World, step: Step)
    requires RowsOk(w.offers) && IsAcceptance(step) && Try(w, step).Some?
    ensures Settles(w.offers, Next(w, step).offers, -1)
  {
    assert Next(w, step).offers == SetStatus(w.offers, step.offer, Accepted);
  }

  lemma PromotionSettles(a: seq<Offer>, rest: World, now: int)
    requires Settles(a, rest.offers, -1)
    ensures Settles(a, Promote(rest, now).offers, Picked(rest, now))
  {
    var waiting := ExpireWaiting(rest.offers, now);
    var k := Picked(rest, now);
    if 0 <= k {
      assert CanBePromoted(waiting[k], rest.listing.available, now);
      assert waiting[k] == ExpireOne(rest.offers[k], now);
      assert SameRow(a[k], rest.offers[k]);
    }
  }

  lemma StepKeepsRows(w: World, step: Step)
    requires RowsOk(w.offers)
    ensures RowsOk(Next(w, step).offers)
  {
    if Try(w, step).Some? {
      if step.Create? {
        BidKeepsRows(w.offers, Next(w, step).offers[|w.offers|]);
      } else if IsCounter(step) {
        CounterKeepsRows(w, step.offer, step.price, if step.ReCounter? then Buyer else Seller, step.expiry);
      } else {
        StepSettles(w, step);
        SettlingKeepsRows(w.offers, Next(w, step).offers, Chosen(w, step));
      }
    }
  }

  // --------------------------------------------------------------------------
  // Orders
  // --------------------------------------------------------------------------

  ghost predicate OrdersOnlyEnd(a: seq<Order>, b: seq<Order>) {
    |a| == |b| && forall k :: 0 <= k < |a| ==> OnlyEnds(a[k], b[k])
  }

  ghost predicate OnlyEnds(a: Order, b: Order) {
    b == a.(status := b.status) && (IsLiveOrder(b) ==> IsLiveOrder(a))
  }

  lemma StepMovesOrders(w: World, step: Step)
    requires RowsOk(w.offers) && !(IsAcceptance(step) && Try(w, step).Some?)
    ensures OrdersOnlyEnd(w.orders, Next(w, step).orders)
  {
  }

  lemma {:induction false} RowsStay(w: World, step: Step)
    requires RowsOk(w.offers)
    ensures |w.offers| <= |Next(w, step).offers|
    ensures forall i :: 0 <= i < |w.offers| ==> SameRow(w.offers[i], Next(w, step).offers[i])
    ensures Next(w, step).listing.minUnitPrice == w.listing.minUnitPrice
  {
    if Try(w, step).Some? && !step.Create? && !IsCounter(step) {
      StepSettles(w, step);
    }
  }

  /** The row whose price an acceptance takes, as it is when it is taken. */
  predicate IsCurrent(w: World, i: int) {
    IsLiveLeaf(w.offers, i)
  }

  function PriceOf(o: Offer): int {
    if o.status == Countered && o.counterAmount.Some? then o.counterAmount.value else o.amount
  }

  /**
   An acceptance takes the price of a live leaf: the bid of a selected offer, the counter amount of a
   countered one. The order it makes is for the row's buyer and quantity, at or above the minimum, with the
   total rounded once, and within what is available.
   */
  lemma AcceptanceMakesTheOrder(w: World, step: Step)
    requires RowsOk(w.offers) && IsAcceptance(step) && Try(w, step).Some?
    ensures var v := Next(w, step);
      && IsCurrent(w, step.offer)
      && |v.orders| == |w.orders| + 1
      && v.orders == w.orders + [Order(step.offer, w.offers[step.offer].buyer, PriceOf(w.offers[step.offer]),
           w.offers[step.offer].quantity, v.orders[|w.orders|].total, Unpaid)]
      && IsRounded(v.orders[|w.orders|].total, PriceOf(w.offers[step.offer]) as real * w.offers[step.offer].quantity)
      && AtLeastMinimum(w.listing, PriceOf(w.offers[step.offer]))
      && w.offers[step.offer].quantity <= w.listing.available
      && v.offers[step.offer].status == Accepted
      && !HasLiveOrder(w.orders)
  {
    assert RowOk(w.offers, step.offer);
  }

  lemma StepKeepsOrders(w: World, step: Step)
    requires Inv(w)
    ensures OneLiveOrder(Next(w, step).orders)
    ensures forall k :: 0 <= k < |Next(w, step).orders| ==> OrderOk(Next(w, step), k)
  {
    if IsAcceptance(step) && Try(w, step).Some? {
      AcceptanceKeepsOrders(w, step);
    } else {
      var v := Next(w, step);
      RowsStay(w, step);
      StepMovesOrders(w, step);
      forall k | 0 <= k < |v.orders| ensures OrderOk(v, k) {
        OldOrderStaysOk(w, v, k);
      }
    }
  }

  lemma OldOrderStaysOk(w: World, v: World, k: int)
    requires 0 <= k < |w.orders| && k < |v.orders| && OrderOk(w, k) && OnlyEnds(w.orders[k], v.orders[k])
    requires |w.offers| <= |v.offers| && forall i :: 0 <= i < |w.offers| ==> SameRow(w.offers[i], v.offers[i])
    requires v.listing.minUnitPrice == w.listing.minUnitPrice
    ensures OrderOk(v, k)
  {
    assert SameRow(w.offers[w.orders[k].offer], v.offers[w.orders[k].offer]);
  }

  lemma AcceptanceKeepsOrders(w: World, step: Step)
    requires Inv(w) && IsAcceptance(step) && Try(w, step).Some?
    ensures OneLiveOrder(Next(w, step).orders)
    ensures forall k :: 0 <= k < |Next(w, step).orders| ==> OrderOk(Next(w, step), k)
  {
    var v := Next(w, step);
    RowsStay(w, step);
    AcceptanceMakesTheOrder(w, step);
    assert RowOk(w.offers, step.offer) && SameRow(w.offers[step.offer], v.offers[step.offer]);
    forall k | 0 <= k < |v.orders| ensures OrderOk(v, k) && (k < |w.orders| ==> !IsLiveOrder(v.orders[k])) {
      if k < |w.orders| {
        assert v.orders[k] == w.orders[k];
        OldOrderStaysOk(w, v, k);
      }
    }
  }

  lemma StepKeepsInv(w: World, step: Step)
    requires Inv(w)
    ensures Inv(Next(w, step))
  {
    StepKeepsRows(w, step);
    StepKeepsOrders(w, step);
  }

  lemma {:induction false} RunsKeepInv(available: real, minUnitPrice: Option<int>, steps: seq<Step>)
    ensures Inv(After(Opening(available, minUnitPrice), steps))
  {
    if steps != [] {
      RunsKeepInv(available, minUnitPrice, steps[..|steps| - 1]);
      StepKeepsInv(After(Opening(available, minUnitPrice), steps[..|steps| - 1]), steps[|steps| - 1]);
    }
  }

  lemma OrdersAreInOrder(w: World, i: int, j: int)
    requires Inv(w) && 0 <= i < |w.orders| && 0 <= j < |w.orders|
    ensures IsLiveOrder(w.orders[i]) && IsLiveOrder(w.orders[j]) ==> i == j
    ensures IsRounded(w.orders[i].total, w.orders[i].unitPrice as real * w.orders[i].quantity)
    ensures AtLeastMinimum(w.listing, w.orders[i].unitPrice) && 0 < w.orders[i].unitPrice
  {
    assert OrderOk(w, i);
  }

  /** One live order per listing in every run whatever, and every order priced by its rules. */
  lemma {:induction false} OneLiveOrderPerListing(available: real, minUnitPrice: Option<int>, steps: seq<Step>, i: int, j: int)
    requires 0 <= i < |After(Opening(available, minUnitPrice), steps).orders|
    requires 0 <= j < |After(Opening(available, minUnitPrice), steps).orders|
    ensures var w := After(Opening(available, minUnitPrice), steps);
      && (IsLiveOrder(w.orders[i]) && IsLiveOrder(w.orders[j]) ==> i == j)
      && IsRounded(w.orders[i].total, w.orders[i].unitPrice as real * w.orders[i].quantity)
      && AtLeastMinimum(w.listing, w.orders[i].unitPrice) && 0 < w.orders[i].unitPrice
  {
    RunsKeepInv(available, minUnitPrice, steps);
    OrdersAreInOrder(After(Opening(available, minUnitPrice), steps), i, j);
  }

  /** The listing as the price exchange of one of its orders sees it, in birr. */
  function DealOf(l: Listing, quantity: real): PR.Deal {
    PR.Deal(true, if l.minUnitPrice.Some? then Some(l.minUnitPrice.value as real / 100.0) else None, quantity)
  }

  lemma ScalesUp(a: int, b: int, quantity: real)
    requires a <= b && 0.0 < quantity
    ensures a as real * quantity <= b as real * quantity
  {
    assert 0.0 <= (b - a) as real * quantity;
  }

  lemma MinimumInCents(unit: int, quantity: real)
    ensures unit as real / 100.0 * quantity * 100.0 == unit as real * quantity
  {
    var u := unit as real / 100.0;
    assert u * 100.0 == unit as real;
    assert u * quantity * 100.0 == (u * 100.0) * quantity;
  }

  lemma TotalMeetsMinimum(minimum: int, unitPrice: int, quantity: real, total: int)
    requires minimum <= unitPrice && 0.0 < quantity && IsRounded(total, unitPrice as real * quantity)
    ensures PR.NotUnderMinimum(PR.Deal(true, Some(minimum as real / 100.0), quantity), total)
  {
    var exact := unitPrice as real * quantity;
    ScalesUp(minimum, unitPrice, quantity);
    MinimumInCents(minimum, quantity);
    assert total as real + 0.5 > exact;
    var d := PR.Deal(true, Some(minimum as real / 100.0), quantity);
    assert PR.MinimumTotal(d) * 100.0 == minimum as real * quantity;
  }

  /** Every order enters the price exchange at a price no more than half a cent under the seller's minimum. */
  lemma {:induction false} OrdersStartAboveMinimum(available: real, minUnitPrice: Option<int>, steps: seq<Step>, k: int)
    requires 0 <= k < |After(Opening(available, minUnitPrice), steps).orders|
    ensures var w := After(Opening(available, minUnitPrice), steps);
      PR.NotUnderMinimum(DealOf(w.listing, w.orders[k].quantity), w.orders[k].total)
  {
    RunsKeepInv(available, minUnitPrice, steps);
    var w := After(Opening(available, minUnitPrice), steps);
    var r := w.orders[k];
    assert OrderOk(w, k);
    if w.listing.minUnitPrice.Some? {
      TotalMeetsMinimum(w.listing.minUnitPrice.value, r.unitPrice, r.quantity, r.total);
    }
  }

  // --------------------------------------------------------------------------
  // Both sides agree to the price
  // --------------------------------------------------------------------------

  function Proposer(o: Offer): Role {
    if o.counteredBy.Some? then o.counteredBy.value else Buyer
  }

  function Accepter(step: Step): Role {
    if step.Accept? then Seller else Buyer
  }

  /** One side named the price, and the other took it: by accepting it, or by choosing the bid that names it. */
  predicate IsBilateral(o: Offer, accepter: Role) {
    Proposer(o) != accepter || (Proposer(o) == Buyer && o.chosen == BySeller)
  }

  /** Every order's price is bilateral, but for a buyer who accepts his own bid after the system promoted it. */
  lemma PriceIsBilateralIff(w: World, step: Step)
    requires RowsOk(w.offers) && IsAcceptance(step) && Try(w, step).Some?
    ensures IsBilateral(w.offers[step.offer], Accepter(step)) <==>
      !(step.AcceptSelected? && w.offers[step.offer].chosen == BySystem)
  {
    assert RowOk(w.offers, step.offer);
  }

  // --------------------------------------------------------------------------
  // The exclusive slot
  // --------------------------------------------------------------------------

  predicate NoLiveLeafOfOthers(w: World, buyer: int) {
    forall i :: 0 <= i < |w.offers| && IsLiveLeaf(w.offers, i) ==> w.offers[i].buyer == buyer
  }

  /** Promotion looks neither for a negotiation that is still alive nor whose it is. */
  predicate MayPromote(rest: World, now: int) {
    var k := Picked(rest, now);
    if k < 0 then !HasLiveLeaf(rest.offers) else NoLiveLeafOfOthers(rest, rest.offers[k].buyer)
  }

  /** What a step would have to check to keep the slot exclusive; only four kinds of step can fail it. */
  predicate IsCareful(w: World, step: Step) {
    match step
    case Counter(i, _, _, _) =>
      0 <= i < |w.offers| ==> w.listing.status != Active && NoLiveLeafOfOthers(w, w.offers[i].buyer)
    case AutoExpire(_, _, now) => Promotes(w, step) ==> MayPromote(BeforePromotion(w, step), now)
    case CancelUnpaid(_, now) => Promotes(w, step) ==> MayPromote(BeforePromotion(w, step), now)
    case CancelUnderway(_) => Next(w, step).listing.status == Active ==> !HasLiveLeaf(w.offers)
    case _ => true
  }

  lemma {:induction false} SelectKeepsExclusive(w: World, step: Step)
    requires RowsOk(w.offers) && Exclusive(w) && step.Select? && Try(w, step).Some?
    ensures Exclusive(Next(w, step))
  {
    var v := Next(w, step);
    StepSettles(w, step);
    forall j | IsLiveLeaf(v.offers, j) ensures v.offers[j].buyer == w.offers[step.offer].buyer {
      SettlingLeaves(w.offers, v.offers, step.offer, j);
      if j != step.offer {
        assert HasLiveLeaf(w.offers);
        assert IsLiveLeaf(w.offers, step.found);
      }
    }
  }

  lemma ClosingKeepsExclusive(w: World, step: Step)
    requires RowsOk(w.offers) && Exclusive(w) && Try(w, step).Some?
    requires IsAcceptance(step) || step.Release? || step.Reject? || step.Withdraw? || step.Expire? || step.PayGoods? ||
      step.MoveOrder? || (step.AutoExpire? && !Promotes(w, step))
    ensures Exclusive(Next(w, step))
  {
    var v := Next(w, step);
    StepSettles(w, step);
    forall j | IsLiveLeaf(v.offers, j) ensures IsLiveLeaf(w.offers, j) && v.offers[j].buyer == w.offers[j].buyer {
      SettlingLeaves(w.offers, v.offers, -1, j);
    }
    if v.listing.status == Active {
      forall j ensures !IsLiveLeaf(v.offers, j) {
        assert IsLiveLeaf(v.offers, j) ==> HasLiveLeaf(v.offers);
      }
    }
  }

  lemma CounterKeepsExclusiveIff(w: World, step: Step)
    requires RowsOk(w.offers) && Exclusive(w) && IsCounter(step) && Try(w, step).Some?
    ensures Exclusive(Next(w, step)) <==>
      w.listing.status != Active && NoLiveLeafOfOthers(w, w.offers[step.offer].buyer)
  {
    var v, i, n := Next(w, step), step.offer, |w.offers|;
    CounterKeepsRows(w, i, step.price, if step.ReCounter? then Buyer else Seller, step.expiry);
    assert IsLiveLeaf(v.offers, n) && v.offers[n].buyer == w.offers[i].buyer;
    if Exclusive(v) {
      forall j | 0 <= j < n && IsLiveLeaf(w.offers, j) ensures w.offers[j].buyer == w.offers[i].buyer {
        if j != i {
          assert IsLiveLeaf(v.offers, j) && v.offers[j] == w.offers[j];
        }
      }
    }
    if NoLiveLeafOfOthers(w, w.offers[i].buyer) {
      forall j | IsLiveLeaf(v.offers, j) ensures v.offers[j].buyer == w.offers[i].buyer {
        assert j == n || IsLiveLeaf(w.offers, j);
      }
    }
  }

  /** A counter on the leaf itself is always careful: the slot is that buyer's. */
  lemma LeafCounterIsCareful(w: World, step: Step)
    requires Exclusive(w) && IsCounter(step) && IsLiveLeaf(w.offers, step.offer)
    ensures w.listing.status != Active && NoLiveLeafOfOthers(w, w.offers[step.offer].buyer)
  {
  }

  /** After a promotion the live leaves are those that were left and the bid promoted. */
  lemma PromotionLeaves(a: seq<Offer>, rest: World, now: int)
    requires RowsOk(a) && Settles(a, rest.offers, -1)
    ensures var v, k := Promote(rest, now), Picked(rest, now);
      && |v.offers| == |rest.offers| && k < |rest.offers|
      && (forall j :: IsLiveLeaf(v.offers, j) <==> IsLiveLeaf(rest.offers, j) || (0 <= k == j))
      && (forall j :: 0 <= j < |rest.offers| ==> v.offers[j].buyer == rest.offers[j].buyer)
  {
    var v, k := Promote(rest, now), Picked(rest, now);
    PromotionSettles(a, rest, now);
    assert Settles(rest.offers, rest.offers, -1);
    PromotionSettles(rest.offers, rest, now);
    forall j ensures IsLiveLeaf(v.offers, j) <==> IsLiveLeaf(rest.offers, j) || (0 <= k == j) {
      ChildrenKept(rest.offers, v.offers, j);
      if 0 <= k == j {
        ChildrenKept(a, rest.offers, j);
        assert RowOk(a, k);
      }
    }
    forall j | 0 <= j < |rest.offers| ensures v.offers[j].buyer == rest.offers[j].buyer {
      assert SameRow(rest.offers[j], v.offers[j]);
    }
  }

  /** Closing rows keeps the slot one buyer's. */
  lemma SettlingKeepsOneBuyer(a: seq<Offer>, b: seq<Offer>)
    requires OneBuyer(a) && Settles(a, b, -1)
    ensures OneBuyer(b)
  {
    forall i, j | IsLiveLeaf(b, i) && IsLiveLeaf(b, j) ensures b[i].buyer == b[j].buyer {
      SettlingLeaves(a, b, -1, i);
      SettlingLeaves(a, b, -1, j);
    }
  }

  /** Promotion, after an expiry or a cancellation, keeps the slot exclusive exactly when it may. */
  lemma PromotionKeepsExclusiveIff(a: seq<Offer>, rest: World, now: int)
    requires RowsOk(a) && OneBuyer(a) && Settles(a, rest.offers, -1)
    ensures Exclusive(Promote(rest, now)) <==> MayPromote(rest, now)
  {
    var v, k := Promote(rest, now), Picked(rest, now);
    PromotionLeaves(a, rest, now);
    SettlingKeepsOneBuyer(a, rest.offers);
    if 0 <= k {
      assert IsLiveLeaf(v.offers, k) && v.offers[k].buyer == rest.offers[k].buyer;
    }
  }

  lemma PromotingStepIff(w: World, step: Step)
    requires RowsOk(w.offers) && Exclusive(w) && Promotes(w, step) && Try(w, step).Some?
    ensures Exclusive(Next(w, step)) <==> IsCareful(w, step)
  {
    var rest := BeforePromotion(w, step);
    assert Settles(w.offers, rest.offers, -1);
    PromotionKeepsExclusiveIff(w.offers, rest, step.now);
  }

  /** Cancelling a later order keeps the slot exclusive exactly when it does not open a listing under negotiation. */
  lemma ReopeningKeepsExclusiveIff(w: World, step: Step)
    requires Exclusive(w) && step.CancelUnderway? && Try(w, step).Some?
    ensures Exclusive(Next(w, step)) <==> IsCareful(w, step)
  {
  }

  /** Whatever the step, the slot stays exclusive exactly when the step is careful. */
  lemma ExclusiveKeptIff(w: World, step: Step)
    requires RowsOk(w.offers) && Exclusive(w) && Try(w, step).Some?
    ensures Exclusive(Next(w, step)) <==> IsCareful(w, step)
  {
    if step.Create? {
      BidKeepsRows(w.offers, Next(w, step).offers[|w.offers|]);
    } else if step.Select? {
      SelectKeepsExclusive(w, step);
    } else if IsCounter(step) {
      CounterKeepsExclusiveIff(w, step);
      if step.ReCounter? {
        LeafCounterIsCareful(w, step);
      }
    } else if Promotes(w, step) {
      PromotingStepIff(w, step);
    } else if step.CancelUnderway? {
      ReopeningKeepsExclusiveIff(w, step);
    } else {
      ClosingKeepsExclusive(w, step);
    }
  }

  /** The leaf check that the seller's counter leaves out, and no promotion or reopening over a live negotiation. */
  predicate IsGuarded(w: World, step: Step) {
    if step.Counter? then IsLeaf(w.offers, step.offer)
    else if step.AutoExpire? || step.CancelUnpaid? || step.CancelUnderway? then IsCareful(w, step)
    else true
  }

  ghost predicate AllGuarded(start: World, steps: seq<Step>) {
    steps == [] ||
    (AllGuarded(start, steps[..|steps| - 1]) && IsGuarded(After(start, steps[..|steps| - 1]), steps[|steps| - 1]))
  }

  /** Exclusive buyer slot: with counters on leaves only, all live leaves are one buyer's and an active listing has none. */
  lemma {:induction false} SlotIsExclusive(available: real, minUnitPrice: Option<int>, steps: seq<Step>)
    requires AllGuarded(Opening(available, minUnitPrice), steps)
    ensures Exclusive(After(Opening(available, minUnitPrice), steps))
  {
    if steps != [] {
      var start, before, step := Opening(available, minUnitPrice), steps[..|steps| - 1], steps[|steps| - 1];
      SlotIsExclusive(available, minUnitPrice, before);
      RunsKeepInv(available, minUnitPrice, before);
      var w := After(start, before);
      if Try(w, step).Some? {
        if step.Counter? {
          LeafCounterIsCareful(w, step);
        }
        ExclusiveKeptIff(w, step);
      }
    }
  }

  /** While the slot is exclusive, it does not matter which live leaf the single look-up of SELECT returns. */
  lemma OneLookUpSuffices(w: World, i: int, found: int, other: int, now: int)
    requires Exclusive(w) && IsLiveLeaf(w.offers, found) && IsLiveLeaf(w.offers, other)
    ensures SelectBid(w, i, found, now) == SelectBid(w, i, other, now)
  {
  }

  // --------------------------------------------------------------------------
  // A run that breaks the slot
  // --------------------------------------------------------------------------

  lemma AfterOne(start: World, steps: seq<Step>, step: Step)
    ensures After(start, steps + [step]) == Next(After(start, steps), step)
  {
    assert (steps + [step])[..|steps|] == steps;
  }

  const FIRST_BUYER := 1
  const SECOND_BUYER := 2
  const FIELD: World := Opening(10.0, None)
  const BID := Offer(FIRST_BUYER, 100, 1.0, Pending, None, None, None, None, Nobody)

  /** Bid, select, buyer counters, seller counters, buyer rejects: the negotiation is over. */
  const REJECTED_RUN: seq<Step> := [
    Create(FIRST_BUYER, 100, 1.0, None), Select(0, -1, 0), ReCounter(0, 90, None, 0), Counter(1, 95, None, 0), Reject(2)]

  function RejectedOffers(): seq<Offer> {
    [BID.(status := Countered, chosen := BySeller),
     Offer(FIRST_BUYER, 90, 1.0, Countered, Some(0), Some(90), Some(Buyer), None, BySeller),
     Offer(FIRST_BUYER, 95, 1.0, Rejected, Some(1), Some(95), Some(Seller), None, BySeller)]
  }

  lemma LeavesOfRejected()
    ensures var offers := RejectedOffers();
      HasChild(offers, 0) && HasChild(offers, 1) && !HasChild(offers, 2) && !HasLiveLeaf(offers)
  {
    var offers := RejectedOffers();
    assert offers[1].parent == Some(0) && offers[2].parent == Some(1);
    assert HasChild(offers, 0) && HasChild(offers, 1);
  }

  const SELECTED_BID: Offer := BID.(status := Selected, chosen := BySeller)

  lemma SelectedFirst()
    ensures After(FIELD, [Create(FIRST_BUYER, 100, 1.0, None), Select(0, -1, 0)]) ==
      World(FIELD.listing.(status := UnderNegotiation), [SELECTED_BID], [])
  {
    var s1: seq<Step> := [Create(FIRST_BUYER, 100, 1.0, None)];
    assert [] + [Create(FIRST_BUYER, 100, 1.0, None)] == s1;
    assert [Create(FIRST_BUYER, 100, 1.0, None), Select(0, -1, 0)] == s1 + [Select(0, -1, 0)];
    AfterOne(FIELD, [], Create(FIRST_BUYER, 100, 1.0, None));
    AfterOne(FIELD, s1, Select(0, -1, 0));
    assert After(FIELD, s1).offers == [BID];
    assert !HasLiveLeaf([BID]) && !HasLiveOrder([]);
  }

  lemma RejectedRun()
    ensures After(FIELD, REJECTED_RUN) == World(FIELD.listing, RejectedOffers(), [])
  {
    var s2: seq<Step> := [Create(FIRST_BUYER, 100, 1.0, None), Select(0, -1, 0)];
    var s3 := s2 + [ReCounter(0, 90, None, 0)];
    var s4 := s3 + [Counter(1, 95, None, 0)];
    assert REJECTED_RUN == s4 + [Reject(2)];
    SelectedFirst();
    AfterOne(FIELD, s2, ReCounter(0, 90, None, 0));
    AfterOne(FIELD, s3, Counter(1, 95, None, 0));
    AfterOne(FIELD, s4, Reject(2));
    assert IsLiveLeaf([SELECTED_BID], 0);
    var two := [BID.(status := Countered, chosen := BySeller), RejectedOffers()[1]];
    assert After(FIELD, s3).offers == two;
    var three := RejectedOffers()[2 := RejectedOffers()[2].(status := Countered)];
    assert After(FIELD, s4).offers == three;
    assert IsLiveLeaf(three, 2);
    LeavesOfRejected();
    assert SetStatus(three, 2, Rejected) == RejectedOffers();
  }

  /** Countering the superseded offer again revives the first buyer's negotiation on an active listing. */
  lemma StaleCounterRevivesOnActive()
    ensures var w := After(FIELD, REJECTED_RUN + [Counter(1, 97, None, 0)]);
      w.listing.status == Active && IsLiveLeaf(w.offers, 3) && !ActiveIsIdle(w)
  {
    RejectedRun();
    AfterOne(FIELD, REJECTED_RUN, Counter(1, 97, None, 0));
    var w := After(FIELD, REJECTED_RUN + [Counter(1, 97, None, 0)]);
    assert IsLiveLeaf(w.offers, 3);
  }

  /** Countering it while another buyer negotiates puts two buyers into the slot at once. */
  const TWO_BUYERS_RUN: seq<Step> :=
    REJECTED_RUN + [Create(SECOND_BUYER, 120, 1.0, None), Select(3, -1, 0), Counter(1, 97, None, 0)]

  const NEXT_BID: Offer := Offer(SECOND_BUYER, 120, 1.0, Pending, None, None, None, None, Nobody)

  lemma SecondBuyerIsSelected()
    ensures After(FIELD, REJECTED_RUN + [Create(SECOND_BUYER, 120, 1.0, None)] + [Select(3, -1, 0)]) ==
      World(FIELD.listing.(status := UnderNegotiation),
            RejectedOffers() + [NEXT_BID.(status := Selected, chosen := BySeller)], [])
  {
    RejectedRun();
    LeavesOfRejected();
    var s1 := REJECTED_RUN + [Create(SECOND_BUYER, 120, 1.0, None)];
    AfterOne(FIELD, REJECTED_RUN, Create(SECOND_BUYER, 120, 1.0, None));
    AfterOne(FIELD, s1, Select(3, -1, 0));
    var offers := RejectedOffers() + [NEXT_BID];
    assert After(FIELD, s1) == World(FIELD.listing, offers, []);
    assert offers[1].parent == Some(0) && offers[2].parent == Some(1);
    assert !HasLiveLeaf(offers);
    assert offers[3 := NEXT_BID.(status := Selected, chosen := BySeller)] ==
      RejectedOffers() + [NEXT_BID.(status := Selected, chosen := BySeller)];
  }

  lemma StaleCounterAdmitsTwoBuyers()
    ensures var w := After(FIELD, TWO_BUYERS_RUN);
      |w.offers| == 5 && IsLiveLeaf(w.offers, 3) && IsLiveLeaf(w.offers, 4) &&
      w.offers[3].buyer != w.offers[4].buyer && !OneBuyer(w.offers)
  {
    SecondBuyerIsSelected();
    var s2 := REJECTED_RUN + [Create(SECOND_BUYER, 120, 1.0, None)] + [Select(3, -1, 0)];
    assert TWO_BUYERS_RUN == s2 + [Counter(1, 97, None, 0)];
    AfterOne(FIELD, s2, Counter(1, 97, None, 0));
    var w := After(FIELD, TWO_BUYERS_RUN);
    assert IsLiveLeaf(w.offers, 3) && IsLiveLeaf(w.offers, 4);
  }

  // --------------------------------------------------------------------------
  // A run that makes an order without the seller
  // --------------------------------------------------------------------------

  /** The selected bid expires, the system promotes the next one, and its buyer accepts his own price. */
  const PROMOTED_RUN: seq<Step> := [
    Create(FIRST_BUYER, 100, 1.0, Some(5)), Create(SECOND_BUYER, 90, 1.0, None), Select(0, -1, 0),
    AutoExpire(0, true, 5), AcceptSelected(1, 5)]

  const EARLY_BID: Offer := BID.(expiresAt := Some(5))
  const WAITING_BID: Offer := Offer(SECOND_BUYER, 90, 1.0, Pending, None, None, None, None, Nobody)
  const PROMOTED_BID: Offer := WAITING_BID.(status := Selected, chosen := BySystem)

  /** After the selection and before the expiry. */
  lemma SelectedRun()
    ensures After(FIELD, PROMOTED_RUN[..3]) ==
      World(FIELD.listing.(status := UnderNegotiation), [EARLY_BID.(status := Selected, chosen := BySeller), WAITING_BID], [])
  {
    var s1: seq<Step> := [Create(FIRST_BUYER, 100, 1.0, Some(5))];
    var s2 := s1 + [Create(SECOND_BUYER, 90, 1.0, None)];
    assert PROMOTED_RUN[..3] == s2 + [Select(0, -1, 0)];
    assert [] + [Create(FIRST_BUYER, 100, 1.0, Some(5))] == s1;
    AfterOne(FIELD, [], Create(FIRST_BUYER, 100, 1.0, Some(5)));
    AfterOne(FIELD, s1, Create(SECOND_BUYER, 90, 1.0, None));
    AfterOne(FIELD, s2, Select(0, -1, 0));
    assert After(FIELD, s2) == World(FIELD.listing, [EARLY_BID, WAITING_BID], []);
    assert !HasLiveLeaf([EARLY_BID, WAITING_BID]) && !HasLiveOrder([]);
  }

  lemma PromotionOfWaitingBid(w: World)
    requires w.listing.available == 10.0 && |w.offers| == 2 && IsClosed(w.offers[0].status) && w.offers[1] == WAITING_BID
    ensures Promote(w, 5).offers == [w.offers[0], PROMOTED_BID]
  {
    assert ExpireWaiting(w.offers, 5) == w.offers;
    assert CanBePromoted(w.offers[1], 10.0, 5) && !CanBePromoted(w.offers[0], 10.0, 5);
    assert BestWaiting(w.offers, 2, 10.0, 5) == 1;
  }

  lemma PromotedBuyerNeedsNoSeller()
    ensures After(FIELD, PROMOTED_RUN).orders == [Order(1, SECOND_BUYER, 90, 1.0, 90, Unpaid)]
    ensures var before := After(FIELD, PROMOTED_RUN[..4]);
      |before.offers| == 2 && !IsBilateral(before.offers[1], Accepter(AcceptSelected(1, 5)))
  {
    var s3, s4 := PROMOTED_RUN[..3], PROMOTED_RUN[..4];
    assert s4 == s3 + [AutoExpire(0, true, 5)] && PROMOTED_RUN == s4 + [AcceptSelected(1, 5)];
    AfterOne(FIELD, s3, AutoExpire(0, true, 5));
    AfterOne(FIELD, s4, AcceptSelected(1, 5));
    SelectedRun();
    var w := After(FIELD, s3);
    var expired := w.(offers := SetStatus(w.offers, 0, Expired));
    PromotionOfWaitingBid(expired);
    var v := After(FIELD, s4);
    assert v == Promote(expired, 5);
    assert v.offers == [expired.offers[0], PROMOTED_BID] && v.orders == [];
    assert v.listing.available == 10.0 && v.listing.minUnitPrice == None;
    assert !HasChild(v.offers, 1);
  }

  // --------------------------------------------------------------------------
  // Runs without a counter in which promotion and reopening break the slot
  // --------------------------------------------------------------------------

  /** One buyer's two bids, made before either was seen by the other's look-up, are both selected; a rival waits. */
  const CROWDED_RUN: seq<Step> := [
    Create(FIRST_BUYER, 100, 1.0, Some(5)), Create(FIRST_BUYER, 95, 1.0, None), Create(SECOND_BUYER, 90, 1.0, None),
    Select(0, -1, 0), Select(1, 0, 0)]

  const SECOND_BID: Offer := Offer(FIRST_BUYER, 95, 1.0, Pending, None, None, None, None, Nobody)
  const BARGAINING: Listing := FIELD.listing.(status := UnderNegotiation)

  /** The three rows with these statuses; the first and second bid were selected by the seller. */
  function ThreeRows(first: OfferStatus, second: OfferStatus, third: Offer): seq<Offer> {
    [EARLY_BID.(status := first, chosen := BySeller), SECOND_BID.(status := second, chosen := BySeller), third]
  }

  lemma NobodyHasChildren(first: OfferStatus, second: OfferStatus, third: Offer)
    requires third.parent == None
    ensures forall i :: !HasChild(ThreeRows(first, second, third), i)
  {
  }

  lemma BidsArrive()
    ensures After(FIELD, CROWDED_RUN[..3]) == World(FIELD.listing, [EARLY_BID, SECOND_BID, WAITING_BID], [])
  {
    var s1 := [CROWDED_RUN[0]];
    var s2 := s1 + [CROWDED_RUN[1]];
    assert CROWDED_RUN[..3] == s2 + [CROWDED_RUN[2]];
    assert [] + [CROWDED_RUN[0]] == s1;
    AfterOne(FIELD, [], CROWDED_RUN[0]);
    AfterOne(FIELD, s1, CROWDED_RUN[1]);
    AfterOne(FIELD, s2, CROWDED_RUN[2]);
  }

  lemma CrowdedRun()
    ensures After(FIELD, CROWDED_RUN) == World(BARGAINING, ThreeRows(Selected, Selected, WAITING_BID), [])
  {
    BidsArrive();
    var s3 := CROWDED_RUN[..3];
    var s4 := s3 + [Select(0, -1, 0)];
    assert CROWDED_RUN == s4 + [Select(1, 0, 0)];
    AfterOne(FIELD, s3, Select(0, -1, 0));
    AfterOne(FIELD, s4, Select(1, 0, 0));
    var one := [EARLY_BID.(status := Selected, chosen := BySeller), SECOND_BID, WAITING_BID];
    assert !HasLiveLeaf([EARLY_BID, SECOND_BID, WAITING_BID]) && !HasLiveOrder([]);
    assert After(FIELD, s4) == World(BARGAINING, one, []);
    assert IsLiveLeaf(one, 0);
    assert one[1 := SECOND_BID.(status := Selected, chosen := BySeller)] == ThreeRows(Selected, Selected, WAITING_BID);
  }

  /** Until then the slot is one buyer's. */
  lemma OneBuyersRows(w: World, first: OfferStatus)
    requires w.listing.status != Active && w.offers == ThreeRows(first, Selected, WAITING_BID)
    ensures Exclusive(w)
  {
  }

  /** The waiting rival is promoted although the first buyer's other bid is still in negotiation. */
  lemma RivalIsPromoted(w: World, now: int, first: OfferStatus)
    requires w.listing.available == 10.0 && IsClosed(first) && w.offers == ThreeRows(first, Selected, WAITING_BID)
    ensures Promote(w, now).offers == ThreeRows(first, Selected, PROMOTED_BID)
    ensures !OneBuyer(Promote(w, now).offers)
  {
    var rows := w.offers;
    assert ExpireWaiting(rows, now) == rows;
    assert BestWaiting(rows, 2, 10.0, now) == -1 && BestWaiting(rows, 3, 10.0, now) == 2;
    NobodyHasChildren(first, Selected, PROMOTED_BID);
    var after := ThreeRows(first, Selected, PROMOTED_BID);
    assert IsLiveLeaf(after, 1) && IsLiveLeaf(after, 2);
  }

  /** The first bid expires: the rival is promoted into a slot the first buyer still holds. */
  lemma PromotionAdmitsTwoBuyers()
    ensures Exclusive(After(FIELD, CROWDED_RUN))
    ensures !OneBuyer(After(FIELD, CROWDED_RUN + [AutoExpire(0, true, 5)]).offers)
  {
    CrowdedRun();
    AfterOne(FIELD, CROWDED_RUN, AutoExpire(0, true, 5));
    var w := After(FIELD, CROWDED_RUN);
    OneBuyersRows(w, Selected);
    assert SetStatus(w.offers, 0, Expired) == ThreeRows(Expired, Selected, WAITING_BID);
    RivalIsPromoted(Expiring(w, 0), 5, Expired);
    ExpiryPromotes(w, 0, 5);
  }

  const FIRST_ORDER: Order := Order(0, FIRST_BUYER, 100, 1.0, 100, Unpaid)

  /** The first bid is accepted. */
  const ORDERED_RUN: seq<Step> := CROWDED_RUN + [AcceptSelected(0, 0)]

  lemma OrderedRun()
    ensures After(FIELD, ORDERED_RUN) ==
      World(BARGAINING, ThreeRows(Accepted, Selected, WAITING_BID), [FIRST_ORDER])
  {
    CrowdedRun();
    AfterOne(FIELD, CROWDED_RUN, AcceptSelected(0, 0));
    NobodyHasChildren(Selected, Selected, WAITING_BID);
    assert !HasLiveOrder([]);
    assert SetStatus(ThreeRows(Selected, Selected, WAITING_BID), 0, Accepted) == ThreeRows(Accepted, Selected, WAITING_BID);
  }

  lemma CancellationPromotes(w: World, now: int)
    requires w.orders == [FIRST_ORDER]
    ensures Next(w, CancelUnpaid(0, now)) == Promote(Unpicking(w, 0), now)
  {
  }

  lemma ExpiryPromotes(w: World, i: int, now: int)
    requires 0 <= i < |w.offers| && IsExpired(w.offers[i], now) && w.offers[i].status == Selected
    ensures Next(w, AutoExpire(i, true, now)) == Promote(Expiring(w, i), now)
  {
  }

  lemma UnpickedRows(w: World)
    requires w.orders == [FIRST_ORDER] && w.offers == ThreeRows(Accepted, Selected, WAITING_BID)
    ensures Unpicking(w, 0).offers == ThreeRows(Withdrawn, Selected, WAITING_BID)
    ensures Unpicking(w, 0).listing == w.listing
  {
    assert SetStatus(w.offers, 0, Withdrawn) == ThreeRows(Withdrawn, Selected, WAITING_BID);
  }

  /** The order made from the first bid is cancelled unpaid: the rival is promoted all the same. */
  lemma CancellationAdmitsTwoBuyers()
    ensures Exclusive(After(FIELD, ORDERED_RUN))
    ensures !OneBuyer(After(FIELD, ORDERED_RUN + [CancelUnpaid(0, 1)]).offers)
  {
    OrderedRun();
    AfterOne(FIELD, ORDERED_RUN, CancelUnpaid(0, 1));
    var w := After(FIELD, ORDERED_RUN);
    OneBuyersRows(w, Accepted);
    UnpickedRows(w);
    RivalIsPromoted(Unpicking(w, 0), 1, Withdrawn);
    CancellationPromotes(w, 1);
  }

  /** The order is paid for and the rival gives up. */
  const PAID_RUN: seq<Step> := ORDERED_RUN + [PayGoods(0)] + [Withdraw(2)]

  lemma PaidRun()
    ensures After(FIELD, PAID_RUN) ==
      World(BARGAINING.(available := 9.0), ThreeRows(Accepted, Selected, WAITING_BID.(status := Withdrawn)),
            [FIRST_ORDER.(status := Underway)])
  {
    OrderedRun();
    var s2 := ORDERED_RUN + [PayGoods(0)];
    AfterOne(FIELD, ORDERED_RUN, PayGoods(0));
    AfterOne(FIELD, s2, Withdraw(2));
    assert After(FIELD, s2) ==
      World(BARGAINING.(available := 9.0), ThreeRows(Accepted, Selected, WAITING_BID), [FIRST_ORDER.(status := Underway)]);
    NobodyHasChildren(Accepted, Selected, WAITING_BID);
    var rows := ThreeRows(Accepted, Selected, WAITING_BID.(status := Withdrawn));
    assert SetStatus(ThreeRows(Accepted, Selected, WAITING_BID), 2, Withdrawn) == rows;
    NobodyHasChildren(Accepted, Selected, WAITING_BID.(status := Withdrawn));
    assert IsLiveLeaf(rows, 1);
  }

  /** Cancelling the paid order looks for waiting and countered offers only, and opens the listing over a selected one. */
  lemma CancellationReopensOverANegotiation()
    ensures Exclusive(After(FIELD, PAID_RUN))
    ensures var w := After(FIELD, PAID_RUN + [CancelUnderway(0)]);
      w.listing.status == Active && IsLiveLeaf(w.offers, 1) && !ActiveIsIdle(w)
  {
    PaidRun();
    AfterOne(FIELD, PAID_RUN, CancelUnderway(0));
    var gone := WAITING_BID.(status := Withdrawn);
    NobodyHasChildren(Accepted, Selected, gone);
    var w := After(FIELD, PAID_RUN);
    assert !HasWaiting(w.offers);
    assert IsLiveLeaf(After(FIELD, PAID_RUN + [CancelUnderway(0)]).offers, 1);
  }
}
