/**
 Offers on one listing: bids, the exclusive negotiation with one buyer, counter-offers, and the order an
 acceptance creates. Every step is one transaction, which reads afresh what it checks; that a caller was
 admitted by an earlier read is not relied on. Rows are only appended, so a row's id is its index.
 */
module Offers {
  import opened Money

  datatype Role = Buyer | Seller

  datatype OfferStatus = Pending | Selected | Countered | Accepted | Rejected | Withdrawn | Expired

  /** Who moved a bid into negotiation; kept only to say whether the seller ever took it up. */
  datatype Chooser = Nobody | BySeller | BySystem

  /** Unit prices are whole cents. */
  datatype Offer = Offer(
    buyer: int, amount: int, quantity: real, status: OfferStatus, parent: Option<int>,
    counterAmount: Option<int>, counteredBy: Option<Role>, expiresAt: Option<int>, chosen: Chooser)

  datatype ListingStatus = Active | UnderNegotiation | Sold

  datatype Listing = Listing(status: ListingStatus, quantity: real, available: real, minUnitPrice: Option<int>)

  /** Unpaid is PENDING_PAYMENT; Underway is every later status before the end, a dispute among them. */
  datatype OrderStatus = Unpaid | Underway | Cancelled | Completed

  datatype Order = Order(offer: int, buyer: int, unitPrice: int, quantity: real, total: int, status: OrderStatus)

  datatype World = World(listing: Listing, offers: seq<Offer>, orders: seq<Order>)

  const EPSILON := 0.000000001

  // --------------------------------------------------------------------------
  // Reading the rows
  // --------------------------------------------------------------------------

  predicate HasChild(offers: seq<Offer>, i: int) {
    exists j :: 0 <= j < |offers| && offers[j].parent == Some(i)
  }

  predicate IsLive(o: Offer) {
    o.status == Selected || o.status == Countered
  }

  predicate IsLeaf(offers: seq<Offer>, i: int) {
    0 <= i < |offers| && !HasChild(offers, i)
  }

  predicate IsLiveLeaf(offers: seq<Offer>, i: int) {
    IsLeaf(offers, i) && IsLive(offers[i])
  }

  predicate HasLiveLeaf(offers: seq<Offer>) {
    exists i :: 0 <= i < |offers| && IsLiveLeaf(offers, i)
  }

  predicate IsLiveOrder(r: Order) {
    r.status == Unpaid || r.status == Underway
  }

  predicate HasLiveOrder(orders: seq<Order>) {
    exists i :: 0 <= i < |orders| && IsLiveOrder(orders[i])
  }

  predicate IsExpired(o: Offer, now: int) {
    o.expiresAt.Some? && o.expiresAt.value <= now
  }

  /** A release is possible only while the buyer is expected to answer. */
  predicate IsBuyersTurn(o: Offer) {
    o.status == Selected || (o.status == Countered && o.counteredBy == Some(Seller))
  }

  function TotalPrice(unitPrice: int, quantity: real): int {
    Round(unitPrice as real * quantity)
  }

  predicate AtLeastMinimum(l: Listing, unitPrice: int) {
    l.minUnitPrice.Some? ==> l.minUnitPrice.value <= unitPrice
  }

  // --------------------------------------------------------------------------
  // Transactions; None when a check fails and everything is rolled back
  // --------------------------------------------------------------------------

  function SetStatus(offers: seq<Offer>, i: int, status: OfferStatus): seq<Offer>
    requires 0 <= i < |offers|
  {
    offers[i := offers[i].(status := status)]
  }

  /** `found` is the row that findFirst happened to return among the live leaves, if there are any. */
  function SelectBid(w: World, i: int, found: int, now: int): Option<World> {
    if !(0 <= i < |w.offers|) then None
    else
      var o := w.offers[i];
      if IsExpired(o, now) || o.status != Pending then None
      else if o.quantity <= 0.0 || o.quantity > w.listing.available + EPSILON then None
      else if HasLiveLeaf(w.offers) && !(IsLiveLeaf(w.offers, found) && w.offers[found].buyer == o.buyer) then None
      else if HasLiveOrder(w.orders) then None
      else Some(w.(listing := w.listing.(status := UnderNegotiation),
                   offers := w.offers[i := o.(status := Selected, chosen := BySeller)]))
  }

  /** acceptOfferAndCreateOrder. */
  function CreateOrder(w: World, i: int, unitPrice: int, now: int): Option<World>
    requires 0 <= i < |w.offers|
  {
    var o := w.offers[i];
    if IsExpired(o, now) || o.quantity <= 0.0 || unitPrice <= 0 then None
    else if IsLive(o) && HasChild(w.offers, i) then None
    else if w.listing.available < o.quantity || !AtLeastMinimum(w.listing, unitPrice) then None
    else if o.status !in {Pending, Selected, Countered} then None
    else if HasLiveOrder(w.orders) then None
    else Some(w.(offers := SetStatus(w.offers, i, Accepted),
                 orders := w.orders + [Order(i, o.buyer, unitPrice, o.quantity, TotalPrice(unitPrice, o.quantity), Unpaid)]))
  }

  function AcceptSelectedBid(w: World, i: int, now: int): Option<World> {
    if !(0 <= i < |w.offers|) || w.offers[i].status != Selected then None
    else CreateOrder(w, i, w.offers[i].amount, now)
  }

  function AcceptSellerCounter(w: World, i: int, now: int): Option<World> {
    if !IsLiveLeaf(w.offers, i) then None
    else
      var o := w.offers[i];
      if o.status == Countered && o.counteredBy != Some(Seller) then None
      else if o.counterAmount.None? || o.counterAmount.value <= 0 then None
      else CreateOrder(w, i, o.counterAmount.value, now)
  }

  function AcceptAsSeller(w: World, i: int, now: int): Option<World> {
    if !IsLiveLeaf(w.offers, i) then None
    else
      var o := w.offers[i];
      if o.status == Countered && o.counteredBy != Some(Buyer) then None
      else if o.status == Countered && o.counterAmount.None? then None
      else CreateOrder(w, i, if o.status == Countered then o.counterAmount.value else o.amount, now)
  }

  function ChildOf(o: Offer, i: int, price: int, role: Role, expiresAt: Option<int>): Offer {
    Offer(o.buyer, price, o.quantity, Countered, Some(i), Some(price), Some(role), expiresAt, o.chosen)
  }

  function AddCounter(w: World, i: int, price: int, role: Role, expiresAt: Option<int>): World
    requires 0 <= i < |w.offers|
  {
    w.(offers := SetStatus(w.offers, i, Countered) + [ChildOf(w.offers[i], i, price, role, expiresAt)])
  }

  /** The other side's counter may be countered, and a selected bid. */
  predicate MayCounter(o: Offer, role: Role) {
    o.status == Selected || (o.status == Countered && o.counteredBy == Some(if role == Buyer then Seller else Buyer))
  }

  function CounterAsBuyer(w: World, i: int, price: int, expiresAt: Option<int>, now: int): Option<World> {
    if !IsLiveLeaf(w.offers, i) || IsExpired(w.offers[i], now) || price <= 0 then None
    else if !MayCounter(w.offers[i], Buyer) then None
    else Some(AddCounter(w, i, price, Buyer, expiresAt))
  }

  /** The seller's counter does not look whether the offer has been superseded. */
  function CounterAsSeller(w: World, i: int, price: int, expiresAt: Option<int>, now: int): Option<World> {
    if !(0 <= i < |w.offers|) || IsExpired(w.offers[i], now) || price <= 0 then None
    else if !MayCounter(w.offers[i], Seller) then None
    else Some(AddCounter(w, i, price, Seller, expiresAt))
  }

  /** Close an offer, and open the listing again when no negotiation is left. */
  function Close(w: World, i: int, status: OfferStatus): World
    requires 0 <= i < |w.offers|
  {
    var offers := SetStatus(w.offers, i, status);
    w.(offers := offers, listing := if HasLiveLeaf(offers) then w.listing else w.listing.(status := Active))
  }

  function ReleaseBuyer(w: World, i: int): Option<World> {
    if !IsLeaf(w.offers, i) || !IsBuyersTurn(w.offers[i]) then None else Some(Close(w, i, Withdrawn))
  }

  function RejectAsBuyer(w: World, i: int): Option<World> {
    if !IsLiveLeaf(w.offers, i) then None else Some(Close(w, i, Rejected))
  }

  function WithdrawBid(w: World, i: int): Option<World> {
    if !IsLeaf(w.offers, i) || w.offers[i].status != Pending then None else Some(Close(w, i, Withdrawn))
  }

  // --------------------------------------------------------------------------
  // Maintenance
  // --------------------------------------------------------------------------

  predicate CanBePromoted(o: Offer, available: real, now: int) {
    o.status == Pending && !IsExpired(o, now) && 0.0 < o.quantity <= available
  }

  /** The waiting bid to promote among the first n: the highest amount, the earliest of equals. */
  function BestWaiting(offers: seq<Offer>, n: int, available: real, now: int): (r: int)
    requires 0 <= n <= |offers|
    ensures -1 <= r < n
    ensures 0 <= r ==> CanBePromoted(offers[r], available, now)
    ensures forall i :: 0 <= i < n && CanBePromoted(offers[i], available, now) ==> 0 <= r && offers[i].amount <= offers[r].amount
    ensures forall i :: 0 <= i < r && CanBePromoted(offers[i], available, now) ==> offers[i].amount < offers[r].amount
  {
    if n == 0 then -1
    else
      var best := BestWaiting(offers, n - 1, available, now);
      if CanBePromoted(offers[n - 1], available, now) && (best < 0 || offers[n - 1].amount > offers[best].amount)
      then n - 1 else best
  }

  function ExpireOne(o: Offer, now: int): Offer {
    if o.status == Pending && IsExpired(o, now) then o.(status := Expired) else o
  }

  function ExpireWaiting(offers: seq<Offer>, now: int): (r: seq<Offer>)
    ensures |r| == |offers|
    ensures forall i :: 0 <= i < |offers| ==> r[i] == ExpireOne(offers[i], now)
  {
    seq(|offers|, i requires 0 <= i < |offers| => ExpireOne(offers[i], now))
  }

  /** promoteNextWaitingBuyer. */
  function Promote(w: World, now: int): World {
    var offers := ExpireWaiting(w.offers, now);
    var next := BestWaiting(offers, |offers|, w.listing.available, now);
    if next < 0 then w.(offers := offers, listing := w.listing.(status := Active))
    else w.(offers := offers[next := offers[next].(status := Selected, chosen := BySystem)],
            listing := w.listing.(status := UnderNegotiation))
  }

  /** expireOffers: whether the offer was selected is what an earlier read said. */
  function AutoExpired(w: World, i: int, wasSelected: bool, now: int): Option<World> {
    if !(0 <= i < |w.offers|) || !IsExpired(w.offers[i], now) || w.offers[i].status !in {Pending, Selected, Countered} then None
    else
      Some(if wasSelected then Promote(Expiring(w, i), now) else Expiring(w, i))
  }

  function Expiring(w: World, i: int): World
    requires 0 <= i < |w.offers|
  {
    w.(offers := SetStatus(w.offers, i, Expired))
  }

  /** cancelOrderInTransaction of an order nobody has paid for: its offer is withdrawn and the next buyer promoted. */
  function CancelUnpaidOrder(w: World, k: int, now: int): Option<World> {
    if 0 <= k < |w.orders| && w.orders[k].status == Unpaid then Some(Promote(Unpicking(w, k), now)) else None
  }

  function Unpicking(w: World, k: int): World
    requires 0 <= k < |w.orders|
  {
    var i := w.orders[k].offer;
    w.(orders := w.orders[k := w.orders[k].(status := Cancelled)],
       offers := if 0 <= i < |w.offers| && w.offers[i].status == Accepted then SetStatus(w.offers, i, Withdrawn) else w.offers)
  }

  /** Waiting and countered offers, superseded ones too; selected ones are not looked for. */
  predicate HasWaiting(offers: seq<Offer>) {
    exists i :: 0 <= i < |offers| && offers[i].status in {Pending, Countered}
  }

  /** cancelOrderInTransaction of a later order: its quantity goes back and the listing opens as offers allow. */
  function CancelUnderwayOrder(w: World, k: int): Option<World> {
    if 0 <= k < |w.orders| && w.orders[k].status == Underway then
      var back := w.listing.available + w.orders[k].quantity;
      var restored := if back <= w.listing.quantity then back else w.listing.quantity;
      Some(w.(orders := w.orders[k := w.orders[k].(status := Cancelled)],
              listing := w.listing.(available := restored, status := StatusFor(restored, w.offers))))
    else None
  }

  function StatusFor(available: real, offers: seq<Offer>): ListingStatus {
    if available <= EPSILON then Sold else if HasWaiting(offers) then UnderNegotiation else Active
  }

  function RejectOne(o: Offer): Offer {
    if o.status in {Pending, Selected, Countered} then o.(status := Rejected) else o
  }

  function RejectOpen(offers: seq<Offer>): (r: seq<Offer>)
    ensures |r| == |offers|
    ensures forall i :: 0 <= i < |offers| ==> r[i] == RejectOne(offers[i])
  {
    seq(|offers|, i requires 0 <= i < |offers| => RejectOne(offers[i]))
  }

  /** commitListingQuantity, when the goods of an order are paid. */
  function CommitQuantity(w: World, k: int): Option<World> {
    if !(0 <= k < |w.orders|) || w.orders[k].status != Unpaid then None
    else if w.listing.status == Sold || w.listing.available < w.orders[k].quantity then None
    else
      var remaining := w.listing.available - w.orders[k].quantity;
      var orders := w.orders[k := w.orders[k].(status := Underway)];
      if remaining <= EPSILON
      then Some(w.(listing := w.listing.(available := remaining, status := Sold), offers := RejectOpen(w.offers), orders := orders))
      else Some(w.(listing := w.listing.(available := remaining, status := UnderNegotiation), orders := orders))
  }

  /** An order is disputed before payment and resumed, or completed. */
  predicate MayMoveOrder(a: OrderStatus, b: OrderStatus) {
    (a == Unpaid && b == Underway) || (a == Underway && b in {Unpaid, Completed})
  }

  // --------------------------------------------------------------------------
  // Runs
  // --------------------------------------------------------------------------

  datatype Step =
    | Create(buyer: int, amount: int, quantity: real, createExpiry: Option<int>)
    | Select(offer: int, found: int, now: int)
    | AcceptSelected(offer: int, now: int)
    | AcceptCounter(offer: int, now: int)
    | Accept(offer: int, now: int)
    | ReCounter(offer: int, price: int, expiry: Option<int>, now: int)
    | Counter(offer: int, price: int, expiry: Option<int>, now: int)
    | Release(offer: int)
    | Reject(offer: int)
    | Withdraw(offer: int)
    | Expire(offer: int, now: int)
    | AutoExpire(offer: int, wasSelected: bool, now: int)
    | PayGoods(order: int)
    | MoveOrder(order: int, status: OrderStatus)
    | CancelUnpaid(order: int, now: int)
    | CancelUnderway(order: int)

  function Try(w: World, step: Step): Option<World> {
    match step
    case Create(buyer, amount, quantity, expiry) =>
      if amount <= 0 || quantity <= 0.0 then None
      else Some(w.(offers := w.offers + [Offer(buyer, amount, quantity, Pending, None, None, None, expiry, Nobody)]))
    case Select(i, found, now) => SelectBid(w, i, found, now)
    case AcceptSelected(i, now) => AcceptSelectedBid(w, i, now)
    case AcceptCounter(i, now) => AcceptSellerCounter(w, i, now)
    case Accept(i, now) => AcceptAsSeller(w, i, now)
    case ReCounter(i, price, expiry, now) => CounterAsBuyer(w, i, price, expiry, now)
    case Counter(i, price, expiry, now) => CounterAsSeller(w, i, price, expiry, now)
    case Release(i) => ReleaseBuyer(w, i)
    case Reject(i) => RejectAsBuyer(w, i)
    case Withdraw(i) => WithdrawBid(w, i)
    // Written by a caller that read the offer open and expired, whatever its status is by now.
    case Expire(i, now) =>
      if 0 <= i < |w.offers| && IsExpired(w.offers[i], now) then Some(w.(offers := SetStatus(w.offers, i, Expired))) else None
    case AutoExpire(i, wasSelected, now) => AutoExpired(w, i, wasSelected, now)
    case PayGoods(k) => CommitQuantity(w, k)
    case MoveOrder(k, status) =>
      if 0 <= k < |w.orders| && MayMoveOrder(w.orders[k].status, status)
      then Some(w.(orders := w.orders[k := w.orders[k].(status := status)])) else None
    case CancelUnpaid(k, now) => CancelUnpaidOrder(w, k, now)
    case CancelUnderway(k) => CancelUnderwayOrder(w, k)
  }

  function Next(w: World, step: Step): World {
    match Try(w, step) case None => w case Some(v) => v
  }

  function Opening(available: real, minUnitPrice: Option<int>): World {
    World(Listing(Active, available, available, minUnitPrice), [], [])
  }

  function After(start: World, steps: seq<Step>): World {
    if steps == [] then start else Next(After(start, steps[..|steps| - 1]), steps[|steps| - 1])
  }
}
