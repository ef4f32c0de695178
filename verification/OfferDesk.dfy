/** The offer actions as they run: each transaction checks and updates the rows one after another. */
module OfferDesk {
  import opened Money
  import opened Offers
  import Safe = OfferSafety

  /** A transaction did what its specification says, or was rolled back. */
  ghost predicate Runs(before: World, step: Step, done: bool, after: World) {
    done == Try(before, step).Some? && after == Next(before, step)
  }

  /** The desk of one listing. `log` is the run so far: the rows are always what its steps lead to. */
  class Desk {
    var listing: Listing
    var offers: seq<Offer>
    var orders: seq<Order>
    ghost const opening: World
    ghost var log: seq<Step>

    function Rows(): World
      reads this
    {
      World(listing, offers, orders)
    }

    ghost predicate Valid()
      reads this
    {
      && opening == Opening(opening.listing.quantity, opening.listing.minUnitPrice)
      && Rows() == After(opening, log)
    }

    constructor (available: real, minUnitPrice: Option<int>)
      ensures Valid() && log == [] && Rows() == Opening(available, minUnitPrice)
    {
      listing, offers, orders := Listing(Active, available, available, minUnitPrice), [], [];
      opening, log := Opening(available, minUnitPrice), [];
    }

    /** Note the step about to be taken. */
    ghost method Note(step: Step)
      modifies this`log
      ensures log == old(log) + [step]
      ensures After(opening, log) == Next(After(opening, old(log)), step)
    {
      Safe.AfterOne(opening, log, step);
      log := log + [step];
    }

    /**
     What the rows at the desk inherit from all its runs: one live order, prices at or above the minimum with
     their totals, and the rules that every row obeys.
     */
    lemma RowsAreInOrder()
      requires Valid()
      ensures Safe.Inv(Rows())
      ensures forall i, j :: 0 <= i < |orders| && 0 <= j < |orders| && IsLiveOrder(orders[i]) && IsLiveOrder(orders[j]) ==> i == j
    {
      Safe.RunsKeepInv(opening.listing.quantity, opening.listing.minUnitPrice, log);
    }

    /** And while no step was careless, the negotiation is one buyer's and an active listing has none. */
    lemma SlotIsExclusive()
      requires Valid() && Safe.AllGuarded(opening, log)
      ensures Safe.Exclusive(Rows())
    {
      Safe.SlotIsExclusive(opening.listing.quantity, opening.listing.minUnitPrice, log);
    }

    method UpdateStatus(i: int, status: OfferStatus)
      requires 0 <= i < |offers|
      modifies this`offers
      ensures offers == SetStatus(old(offers), i, status)
    {
      offers := offers[i := offers[i].(status := status)];
    }

    method SelectOffer(i: int, found: int, now: int) returns (done: bool)
      requires Valid()
      modifies this
      ensures Runs(old(Rows()), Select(i, found, now), done, Rows())
      ensures Valid() && log == old(log) + [Select(i, found, now)]
    {
      Note(Select(i, found, now));
      done := false;
      if !(0 <= i < |offers|) {
        return;
      }
      var current := offers[i];
      if IsExpired(current, now) || current.status != Pending {
        return;
      }
      if current.quantity <= 0.0 || current.quantity > listing.available + EPSILON {
        return;
      }
      if HasLiveLeaf(offers) {
        if !IsLiveLeaf(offers, found) || offers[found].buyer != current.buyer {
          return;
        }
      }
      if HasLiveOrder(orders) {
        return;
      }
      UpdateStatus(i, Selected);
      offers := offers[i := offers[i].(chosen := BySeller)];
      listing := listing.(status := UnderNegotiation);
      done := true;
    }

    /** acceptOfferAndCreateOrder: a live order found after the claim rolls the claim back. */
    method AcceptAndCreateOrder(i: int, unitPrice: int, now: int) returns (done: bool)
      requires 0 <= i < |offers|
      modifies this`offers, this`orders
      ensures done == CreateOrder(old(Rows()), i, unitPrice, now).Some?
      ensures Rows() == if done then CreateOrder(old(Rows()), i, unitPrice, now).value else old(Rows())
      ensures done ==>
        var o, r := old(offers)[i], orders[|orders| - 1];
        && orders == old(orders) + [Order(i, o.buyer, unitPrice, o.quantity, r.total, Unpaid)]
        && Safe.IsRounded(r.total, unitPrice as real * o.quantity)
        && offers == old(offers)[i := o.(status := Accepted)]
    {
      done := false;
      var offer := offers[i];
      if IsExpired(offer, now) {
        return;
      }
      if offer.quantity <= 0.0 || unitPrice <= 0 {
        return;
      }
      if IsLive(offer) && HasChild(offers, i) {
        return;
      }
      if listing.available < offer.quantity {
        return;
      }
      var totalPrice := TotalPrice(unitPrice, offer.quantity);
      if listing.minUnitPrice.Some? && unitPrice < listing.minUnitPrice.value {
        return;
      }
      if offer.status != Pending && offer.status != Selected && offer.status != Countered {
        return;
      }
      var before := offers;
      UpdateStatus(i, Accepted);
      if HasLiveOrder(orders) {
        offers := before;
        return;
      }
      orders := orders + [Order(i, offer.buyer, unitPrice, offer.quantity, totalPrice, Unpaid)];
      done := true;
    }

    method AcceptSelectedOffer(i: int, now: int) returns (done: bool)
      requires Valid()
      modifies this`offers, this`orders, this`log
      ensures Runs(old(Rows()), AcceptSelected(i, now), done, Rows())
      ensures Valid() && log == old(log) + [AcceptSelected(i, now)]
    {
      Note(AcceptSelected(i, now));
      done := false;
      if 0 <= i < |offers| && offers[i].status == Selected {
        done := AcceptAndCreateOrder(i, offers[i].amount, now);
      }
    }

    method AcceptCounterOffer(i: int, now: int) returns (done: bool)
      requires Valid()
      modifies this`offers, this`orders, this`log
      ensures Runs(old(Rows()), AcceptCounter(i, now), done, Rows())
      ensures Valid() && log == old(log) + [AcceptCounter(i, now)]
    {
      Note(AcceptCounter(i, now));
      done := false;
      if !IsLiveLeaf(offers, i) {
        return;
      }
      if offers[i].status == Countered && offers[i].counteredBy != Some(Seller) {
        return;
      }
      if offers[i].counterAmount.Some? && offers[i].counterAmount.value > 0 {
        done := AcceptAndCreateOrder(i, offers[i].counterAmount.value, now);
      }
    }

    method AcceptBySeller(i: int, now: int) returns (done: bool)
      requires Valid()
      modifies this`offers, this`orders, this`log
      ensures Runs(old(Rows()), Accept(i, now), done, Rows())
      ensures Valid() && log == old(log) + [Accept(i, now)]
    {
      Note(Accept(i, now));
      done := false;
      if !IsLiveLeaf(offers, i) {
        return;
      }
      var finalPrice := offers[i].amount;
      if offers[i].status == Countered {
        if offers[i].counteredBy != Some(Buyer) || offers[i].counterAmount.None? {
          return;
        }
        finalPrice := offers[i].counterAmount.value;
      }
      done := AcceptAndCreateOrder(i, finalPrice, now);
    }

    method AppendCounter(i: int, price: int, role: Role, expiry: Option<int>)
      requires 0 <= i < |offers|
      modifies this`offers
      ensures Rows() == AddCounter(old(Rows()), i, price, role, expiry)
    {
      var current := offers[i];
      UpdateStatus(i, Countered);
      offers := offers + [Offer(current.buyer, price, current.quantity, Countered, Some(i), Some(price), Some(role), expiry, current.chosen)];
    }

    method ReCounterByBuyer(i: int, price: int, expiry: Option<int>, now: int) returns (done: bool)
      requires Valid()
      modifies this`offers, this`log
      ensures Runs(old(Rows()), ReCounter(i, price, expiry, now), done, Rows())
      ensures Valid() && log == old(log) + [ReCounter(i, price, expiry, now)]
    {
      Note(ReCounter(i, price, expiry, now));
      done := false;
      if !IsLiveLeaf(offers, i) || IsExpired(offers[i], now) || price <= 0 {
        return;
      }
      if offers[i].status == Countered && offers[i].counteredBy != Some(Seller) {
        return;
      }
      AppendCounter(i, price, Buyer, expiry);
      done := true;
    }

    method CounterBySeller(i: int, price: int, expiry: Option<int>, now: int) returns (done: bool)
      requires Valid()
      modifies this`offers, this`log
      ensures Runs(old(Rows()), Counter(i, price, expiry, now), done, Rows())
      ensures Valid() && log == old(log) + [Counter(i, price, expiry, now)]
    {
      Note(Counter(i, price, expiry, now));
      done := false;
      if !(0 <= i < |offers|) || IsExpired(offers[i], now) || price <= 0 {
        return;
      }
      if offers[i].status != Selected && offers[i].status != Countered {
        return;
      }
      if offers[i].status == Countered && offers[i].counteredBy != Some(Buyer) {
        return;
      }
      AppendCounter(i, price, Seller, expiry);
      done := true;
    }

    /** Close an offer, then look whether any negotiation is left. */
    method CloseOffer(i: int, status: OfferStatus)
      requires 0 <= i < |offers|
      modifies this`offers, this`listing
      ensures Rows() == Close(old(Rows()), i, status)
    {
      UpdateStatus(i, status);
      if !HasLiveLeaf(offers) {
        listing := listing.(status := Active);
      }
    }

    method ReleaseSilentBuyer(i: int) returns (done: bool)
      requires Valid()
      modifies this`offers, this`listing, this`log
      ensures Runs(old(Rows()), Release(i), done, Rows())
      ensures Valid() && log == old(log) + [Release(i)]
    {
      Note(Release(i));
      done := IsLeaf(offers, i) && IsBuyersTurn(offers[i]);
      if done {
        CloseOffer(i, Withdrawn);
      }
    }

    method RejectByBuyer(i: int) returns (done: bool)
      requires Valid()
      modifies this`offers, this`listing, this`log
      ensures Runs(old(Rows()), Reject(i), done, Rows())
      ensures Valid() && log == old(log) + [Reject(i)]
    {
      Note(Reject(i));
      done := IsLiveLeaf(offers, i);
      if done {
        CloseOffer(i, Rejected);
      }
    }

    method WithdrawByBuyer(i: int) returns (done: bool)
      requires Valid()
      modifies this`offers, this`listing, this`log
      ensures Runs(old(Rows()), Withdraw(i), done, Rows())
      ensures Valid() && log == old(log) + [Withdraw(i)]
    {
      Note(Withdraw(i));
      done := IsLeaf(offers, i) && offers[i].status == Pending;
      if done {
        CloseOffer(i, Withdrawn);
      }
    }

    /** promoteNextWaitingBuyer: expire waiting bids one by one, then select the best of those left. */
    method PromoteNextWaitingBuyer(now: int)
      modifies this`offers, this`listing
      ensures Rows() == Promote(old(Rows()), now)
    {
      ghost var was := offers;
      for i := 0 to |offers|
        invariant |offers| == |was| && listing == old(listing)
        invariant forall j :: 0 <= j < i ==> offers[j] == ExpireOne(was[j], now)
        invariant forall j :: i <= j < |was| ==> offers[j] == was[j]
      {
        if offers[i].status == Pending && IsExpired(offers[i], now) {
          UpdateStatus(i, Expired);
        }
      }
      assert offers == ExpireWaiting(was, now);
      var next := -1;
      for i := 0 to |offers|
        invariant next == BestWaiting(offers, i, listing.available, now)
      {
        if CanBePromoted(offers[i], listing.available, now) && (next < 0 || offers[i].amount > offers[next].amount) {
          next := i;
        }
      }
      if next < 0 {
        listing := listing.(status := Active);
        return;
      }
      offers := offers[next := offers[next].(status := Selected, chosen := BySystem)];
      listing := listing.(status := UnderNegotiation);
    }

    method ExpireOffer(i: int, wasSelected: bool, now: int) returns (done: bool)
      requires Valid()
      modifies this`offers, this`listing, this`log
      ensures Runs(old(Rows()), AutoExpire(i, wasSelected, now), done, Rows())
      ensures Valid() && log == old(log) + [AutoExpire(i, wasSelected, now)]
    {
      Note(AutoExpire(i, wasSelected, now));
      done := 0 <= i < |offers| && IsExpired(offers[i], now) && offers[i].status in {Pending, Selected, Countered};
      if done {
        UpdateStatus(i, Expired);
        if wasSelected {
          PromoteNextWaitingBuyer(now);
        }
      }
    }

    /** A bid is stored with whatever look-ups its caller made. */
    method CreateOffer(buyer: int, amount: int, quantity: real, expiry: Option<int>) returns (done: bool)
      requires Valid()
      modifies this`offers, this`log
      ensures Runs(old(Rows()), Create(buyer, amount, quantity, expiry), done, Rows())
      ensures Valid() && log == old(log) + [Create(buyer, amount, quantity, expiry)]
    {
      Note(Create(buyer, amount, quantity, expiry));
      done := 0 < amount && 0.0 < quantity;
      if done {
        offers := offers + [Offer(buyer, amount, quantity, Pending, None, None, None, expiry, Nobody)];
      }
    }

    /** updateMany on the open offers of a listing that is sold out. */
    method RejectOpenOffers()
      modifies this`offers
      ensures offers == RejectOpen(old(offers))
    {
      ghost var was := offers;
      for i := 0 to |offers|
        invariant |offers| == |was|
        invariant forall j :: 0 <= j < i ==> offers[j] == RejectOne(was[j])
        invariant forall j :: i <= j < |was| ==> offers[j] == was[j]
      {
        if offers[i].status == Pending || offers[i].status == Countered || offers[i].status == Selected {
          UpdateStatus(i, Rejected);
        }
      }
    }

    /** The goods are paid: their quantity is taken, and a listing that is sold out closes its open offers. */
    method CommitListingQuantity(k: int) returns (done: bool)
      requires Valid()
      modifies this
      ensures Runs(old(Rows()), PayGoods(k), done, Rows())
      ensures Valid() && log == old(log) + [PayGoods(k)]
    {
      Note(PayGoods(k));
      done := false;
      if !(0 <= k < |orders|) || orders[k].status != Unpaid {
        return;
      }
      if listing.status == Sold || listing.available < orders[k].quantity {
        return;
      }
      listing := listing.(available := listing.available - orders[k].quantity);
      listing := listing.(status := if listing.available <= EPSILON then Sold else UnderNegotiation);
      if listing.available <= EPSILON {
        RejectOpenOffers();
      }
      orders := orders[k := orders[k].(status := Underway)];
      done := true;
    }

    /** A cancelled order gives its quantity back; then waiting and countered offers are counted. */
    method ReleaseListingQuantity(quantity: real)
      modifies this`listing
      ensures listing.available == (if old(listing).available + quantity <= old(listing).quantity
                                    then old(listing).available + quantity else old(listing).quantity)
      ensures listing == old(listing).(available := listing.available, status := StatusFor(listing.available, offers))
    {
      var restored := listing.available + quantity;
      if restored > listing.quantity {
        restored := listing.quantity;
      }
      var open := 0;
      for i := 0 to |offers|
        invariant 0 <= open
        invariant open > 0 <==> HasWaiting(offers[..i])
      {
        assert offers[..i + 1] == offers[..i] + [offers[i]];
        if offers[i].status == Pending || offers[i].status == Countered {
          assert offers[..i + 1][i] == offers[i];
          open := open + 1;
        }
      }
      assert offers[..|offers|] == offers;
      listing := listing.(available := restored,
                          status := if restored <= EPSILON then Sold else if open > 0 then UnderNegotiation else Active);
    }

    /** cancelOrderInTransaction, as far as the listing and its offers go. */
    method CancelOrder(k: int, now: int) returns (done: bool)
      requires Valid()
      modifies this
      ensures var unpaid := 0 <= k < |old(orders)| && old(orders)[k].status == Unpaid;
        var step := if unpaid then CancelUnpaid(k, now) else CancelUnderway(k);
        Runs(old(Rows()), step, done, Rows()) && Valid() && log == old(log) + [step]
    {
      ghost var unpaid := 0 <= k < |orders| && orders[k].status == Unpaid;
      RowsAreInOrder();
      Note(if unpaid then CancelUnpaid(k, now) else CancelUnderway(k));
      done := 0 <= k < |orders| && IsLiveOrder(orders[k]);
      if !done {
        return;
      }
      var order := orders[k];
      assert Safe.OrderOk(old(Rows()), k);
      if order.status == Underway {
        orders := orders[k := order.(status := Cancelled)];
        ReleaseListingQuantity(order.quantity);
        return;
      }
      GiveUpPurchase(k);
      PromoteNextWaitingBuyer(now);
    }

    /** The order is cancelled, and the offer it was made from is withdrawn. */
    method GiveUpPurchase(k: int)
      requires 0 <= k < |orders| && 0 <= orders[k].offer < |offers|
      modifies this`orders, this`offers
      ensures Rows() == Unpicking(old(Rows()), k)
    {
      var offer := orders[k].offer;
      orders := orders[k := orders[k].(status := Cancelled)];
      if offers[offer].status == Accepted {
        UpdateStatus(offer, Withdrawn);
      }
    }
  }
}
