/**
 The price exchange after inspection: proposals, counter-proposals, cancellation requests and the
 buyer's decision, for one order. Reviews are only ever appended; a review's id is its index.

 Proposing reads first and commits later (Admit, Commit); responding and deciding are one transaction each.
 Stored prices are whole cents; a price in a request is a real number of birr.
 */
module PriceReviews {
  import opened Money

  datatype Party = Buyer | Seller

  datatype State = Live | Disputed | Cancelled | Completed

  datatype Decision = Undecided | Buy | Cancel

  datatype ReviewStatus = Pending | Countered | Accepted | Rejected

  datatype Review = Review(proposer: Party, price: int, cancelling: bool, status: ReviewStatus, parent: Option<int>)

  /** What the exchange can see of an order; the last three fields belong to other parts of the system. */
  datatype Order = Order(
    state: State, decision: Decision, finalPrice: int, reviews: seq<Review>,
    reported: bool, goodsPaymentOpen: bool, goodsMoving: bool)

  /** The listing: whether it sells goods, and the seller's minimum for the ordered quantity, if any. */
  datatype Deal = Deal(isGoods: bool, minUnitPrice: Option<real>, quantity: real)

  datatype Result = Done(order: Order) | Refused(code: int)

  /** A price in birr as the database stores it: to the nearest cent. */
  function Cents(price: real): int {
    Round(price * 100.0)
  }

  function MinimumTotal(d: Deal): real {
    match d.minUnitPrice case None => 0.0 case Some(unit) => unit * d.quantity
  }

  predicate BelowMinimum(d: Deal, price: real) {
    MinimumTotal(d) > 0.0 && price < MinimumTotal(d)
  }

  predicate IsPending(reviews: seq<Review>, i: int) {
    0 <= i < |reviews| && reviews[i].status == Pending
  }

  predicate HasPending(reviews: seq<Review>) {
    exists i :: 0 <= i < |reviews| && IsPending(reviews, i)
  }

  /** Accepted as a price, not as a cancellation. */
  predicate IsAgreement(reviews: seq<Review>, i: int) {
    0 <= i < |reviews| && reviews[i].status == Accepted && !reviews[i].cancelling
  }

  predicate HasAgreement(reviews: seq<Review>) {
    exists i :: 0 <= i < |reviews| && IsAgreement(reviews, i)
  }

  // --------------------------------------------------------------------------
  // Proposing
  // --------------------------------------------------------------------------

  /** A proposal in flight. `price` is the proposed, suggested or walk-away price; `at` is the order as read. */
  datatype Proposal = Proposal(proposer: Party, price: Option<real>, cancelling: bool, at: Order)

  predicate IsClosed(o: Order) {
    o.state != Live || o.goodsPaymentOpen || o.decision == Buy
  }

  function Admit(d: Deal, p: Proposal): Option<int> {
    if !d.isGoods then Some(400)
    else if IsClosed(p.at) then Some(409)
    else if !p.at.reported then Some(409)
    else if HasPending(p.at.reviews) then Some(409)
    else if p.at.decision == Cancel then Some(409)
    else if p.cancelling then
      if p.proposer != Buyer then Some(403)
      else if p.price.Some? && p.price.value <= 0.0 then Some(400) else None
    else if p.price.None? || p.price.value <= 0.0 then Some(400)
    else if BelowMinimum(d, p.price.value) then Some(409)
    else if p.proposer == Buyer && p.price.value * 100.0 > p.at.finalPrice as real then Some(400)
    else None
  }

  /** The transaction looks again at the status and at open reviews, not at the decision or payments. */
  function Commit(p: Proposal, o: Order): Result
    requires p.cancelling || p.price.Some?
  {
    if o.state != Live then Refused(409)
    else if HasPending(o.reviews) then Refused(409)
    else if p.cancelling then
      var price := match p.price case None => o.finalPrice case Some(v) => Cents(v);
      Done(o.(reviews := o.reviews + [Review(p.proposer, price, true, Pending, None)]))
    else if p.proposer != Buyer && p.price.value * 100.0 == o.finalPrice as real then Refused(400)
    else Done(o.(reviews := o.reviews + [Review(p.proposer, Cents(p.price.value), false, Pending, None)]))
  }

  // --------------------------------------------------------------------------
  // Responding
  // --------------------------------------------------------------------------

  datatype Answer = Accept | Counter(price: Option<real>, cancelling: Option<bool>) | Reject

  function SetReview(o: Order, i: int, status: ReviewStatus): Order
    requires 0 <= i < |o.reviews|
  {
    o.(reviews := o.reviews[i := o.reviews[i].(status := status)])
  }

  /** cancelOrderInTransaction, as far as the exchange sees it. */
  function CancelOrder(o: Order): Result {
    if o.state == Completed || o.state == Cancelled then Refused(409)
    else if o.goodsMoving then Refused(400)
    else Done(o.(state := Cancelled))
  }

  function Respond(d: Deal, o: Order, who: Party, i: int, answer: Answer): Result {
    if IsClosed(o) then Refused(409)
    else if !(0 <= i < |o.reviews|) then Refused(404)
    else if o.reviews[i].status != Pending then Refused(409)
    else if o.reviews[i].proposer == who then Refused(403)
    else
      match answer
      case Accept =>
        if o.reviews[i].cancelling then CancelOrder(SetReview(o, i, Accepted).(decision := Cancel))
        else Done(SetReview(o, i, Accepted).(finalPrice := o.reviews[i].price, decision := Buy))
      case Reject => if o.reviews[i].cancelling then Refused(400) else Done(SetReview(o, i, Rejected))
      case Counter(price, cancelling) =>
        if price.None? || price.value <= 0.0 || cancelling.None? then Refused(400)
        else if !o.reviews[i].cancelling && price.value * 100.0 == o.reviews[i].price as real then Refused(400)
        else if BelowMinimum(d, price.value) then Refused(409)
        else
          var answered := SetReview(o, i, Countered);
          Done(answered.(reviews := answered.reviews + [Review(who, Cents(price.value), cancelling.value, Pending, Some(i))]))
  }

  // --------------------------------------------------------------------------
  // The buyer's decision
  // --------------------------------------------------------------------------

  function Decide(d: Deal, o: Order, buy: bool): Result {
    if !d.isGoods then Refused(400)
    else if o.state != Live then Refused(409)
    else if buy && HasPending(o.reviews) then Refused(409)
    else if buy && !HasAgreement(o.reviews) then Refused(409)
    else if o.decision != Undecided then Refused(409)
    else if !o.reported then Refused(409)
    else if buy then Done(o.(decision := Buy))
    else CancelOrder(o.(decision := Cancel))
  }

  // --------------------------------------------------------------------------
  // The rest of the order's life
  // --------------------------------------------------------------------------

  datatype Event =
    | ReportChanges(reported: bool)
    | GoodsPaymentChanges(open: bool)
    | GoodsMove(moving: bool)
    | DisputeRaised
    | DisputeResolved(into: State)
    | OrderCancelled
    | ReceiptConfirmed

  function Happen(o: Order, e: Event): Order {
    match e
    case ReportChanges(reported) => o.(reported := reported)
    case GoodsPaymentChanges(open) => o.(goodsPaymentOpen := open)
    case GoodsMove(moving) => o.(goodsMoving := moving)
    case DisputeRaised => if o.state == Live then o.(state := Disputed) else o
    case DisputeResolved(into) => if o.state == Disputed then o.(state := into) else o
    case OrderCancelled => if o.state in {Live, Disputed} then o.(state := Cancelled) else o
    case ReceiptConfirmed => if o.state == Live then o.(state := Completed) else o
  }

  // --------------------------------------------------------------------------
  // Interleaved runs
  // --------------------------------------------------------------------------

  datatype Sys = Sys(order: Order, proposals: seq<Proposal>)

  datatype Step =
    | ReadProposal(proposer: Party, price: Option<real>, cancelling: bool)
    | RunProposal(proposal: int)
    | RunResponse(who: Party, review: int, answer: Answer)
    | RunDecision(buy: bool)
    | Elsewhere(event: Event)

  function OrElse(r: Result, o: Order): Order {
    match r case Done(next) => next case Refused(_) => o
  }

  function Next(d: Deal, s: Sys, step: Step): Sys {
    match step
    case ReadProposal(proposer, price, cancelling) =>
      var p := Proposal(proposer, price, cancelling, s.order);
      if Admit(d, p) == None then s.(proposals := s.proposals + [p]) else s
    case RunProposal(i) =>
      if 0 <= i < |s.proposals| && (s.proposals[i].cancelling || s.proposals[i].price.Some?)
      then s.(order := OrElse(Commit(s.proposals[i], s.order), s.order)) else s
    case RunResponse(who, i, answer) => s.(order := OrElse(Respond(d, s.order, who, i, answer), s.order))
    case RunDecision(buy) => s.(order := OrElse(Decide(d, s.order, buy), s.order))
    case Elsewhere(e) => s.(order := Happen(s.order, e))
  }

  /** An order is created at a total no more than half a cent under the minimum: its unit price was checked. */
  predicate IsStart(d: Deal, o: Order) {
    o.state == Live && o.decision == Undecided && o.reviews == [] &&
    !o.goodsPaymentOpen && !o.goodsMoving && !o.reported && NotUnderMinimum(d, o.finalPrice)
  }

  predicate NotUnderMinimum(d: Deal, cents: int) {
    MinimumTotal(d) > 0.0 ==> MinimumTotal(d) * 100.0 - 0.5 <= cents as real
  }

  function After(d: Deal, start: Order, steps: seq<Step>): Sys {
    if steps == [] then Sys(start, []) else Next(d, After(d, start, steps[..|steps| - 1]), steps[|steps| - 1])
  }

  // --------------------------------------------------------------------------
  // What every state keeps
  // --------------------------------------------------------------------------

  function OtherParty(p: Party): Party {
    match p case Buyer => Seller case Seller => Buyer
  }

  ghost predicate AnswersTo(reviews: seq<Review>, r: Review, p: int) {
    0 <= p < |reviews| && reviews[p].status == Countered && r.proposer == OtherParty(reviews[p].proposer)
  }

  ghost predicate ReviewOk(d: Deal, o: Order, i: int)
    requires 0 <= i < |o.reviews|
  {
    var r := o.reviews[i];
    && (r.cancelling ==> r.status != Rejected)
    && (!r.cancelling ==> NotUnderMinimum(d, r.price))
    && (r.cancelling && r.status == Accepted ==> o.decision == Cancel)
    && (r.parent.Some? ==> r.parent.value < i && AnswersTo(o.reviews, r, r.parent.value))
  }

  ghost predicate OnePending(reviews: seq<Review>) {
    forall i, j :: IsPending(reviews, i) && IsPending(reviews, j) ==> i == j
  }

  ghost predicate OneAgreement(o: Order) {
    && (forall i :: IsAgreement(o.reviews, i) ==> o.reviews[i].price == o.finalPrice)
    && (forall i, j :: IsAgreement(o.reviews, i) && IsAgreement(o.reviews, j) ==> i == j)
    && (o.decision == Buy <==> HasAgreement(o.reviews))
  }

  ghost predicate Inv(d: Deal, o: Order) {
    && (forall i :: 0 <= i < |o.reviews| ==> ReviewOk(d, o, i))
    && OnePending(o.reviews)
    && OneAgreement(o)
    && (o.decision == Cancel ==> o.state == Cancelled)
    && NotUnderMinimum(d, o.finalPrice)
  }

  lemma RoundedMinimum(d: Deal, price: real)
    requires !BelowMinimum(d, price)
    ensures NotUnderMinimum(d, Cents(price))
  {
  }

  lemma AppendedReview(reviews: seq<Review>, r: Review, i: int)
    ensures IsPending(reviews + [r], i) <==> IsPending(reviews, i) || (i == |reviews| && r.status == Pending)
    ensures r.status == Pending ==> (IsAgreement(reviews + [r], i) <==> IsAgreement(reviews, i))
  {
  }

  lemma AppendKeepsInv(d: Deal, o: Order, r: Review)
    requires Inv(d, o) && !HasPending(o.reviews) && r.status == Pending
    requires !r.cancelling ==> NotUnderMinimum(d, r.price)
    requires r.parent.Some? ==> AnswersTo(o.reviews, r, r.parent.value)
    ensures Inv(d, o.(reviews := o.reviews + [r]))
  {
    var b := o.(reviews := o.reviews + [r]);
    forall i ensures IsPending(b.reviews, i) ==> i == |o.reviews| {
      AppendedReview(o.reviews, r, i);
    }
    forall i ensures IsAgreement(b.reviews, i) <==> IsAgreement(o.reviews, i) {
      AppendedReview(o.reviews, r, i);
    }
    forall i | 0 <= i < |b.reviews| ensures ReviewOk(d, b, i) {
      if i < |o.reviews| {
        assert ReviewOk(d, o, i);
      }
    }
  }

  lemma ProposalKeepsInv(d: Deal, p: Proposal, o: Order)
    requires Inv(d, o) && Admit(d, p) == None && Commit(p, o).Done?
    ensures Inv(d, Commit(p, o).order)
  {
    if p.price.Some? && !p.cancelling {
      RoundedMinimum(d, p.price.value);
    }
    AppendKeepsInv(d, o, Commit(p, o).order.reviews[|o.reviews|]);
  }

  /** Answering the pending review, with nothing said yet about price and decision. */
  lemma Answered(d: Deal, o: Order, i: int, status: ReviewStatus)
    requires Inv(d, o) && IsPending(o.reviews, i) && status != Pending
    ensures var b := SetReview(o, i, status);
      && !HasPending(b.reviews)
      && (forall j :: IsAgreement(b.reviews, j) <==> IsAgreement(o.reviews, j) || (j == i && status == Accepted && !o.reviews[i].cancelling))
      && (forall j :: 0 <= j < |b.reviews| && j != i ==> ReviewOk(d, b, j))
      && (status == Countered || (status == Rejected && !o.reviews[i].cancelling) ==> ReviewOk(d, b, i))
  {
    var b := SetReview(o, i, status);
    forall j ensures !IsPending(b.reviews, j) {
      assert j != i ==> (IsPending(b.reviews, j) <==> IsPending(o.reviews, j));
    }
    forall j | 0 <= j < |b.reviews| && (j != i || status == Countered || (status == Rejected && !o.reviews[i].cancelling))
      ensures ReviewOk(d, b, j)
    {
      assert ReviewOk(d, o, j);
    }
  }

  lemma AcceptKeepsInv(d: Deal, o: Order, who: Party, i: int)
    requires Inv(d, o) && Respond(d, o, who, i, Accept).Done?
    ensures Inv(d, Respond(d, o, who, i, Accept).order)
  {
    var b := Respond(d, o, who, i, Accept).order;
    Answered(d, o, i, Accepted);
    assert ReviewOk(d, o, i);
    forall j | 0 <= j < |b.reviews| ensures ReviewOk(d, b, j) {
      assert ReviewOk(d, o, j);
    }
    if !o.reviews[i].cancelling {
      assert IsAgreement(b.reviews, i);
      assert forall j :: IsAgreement(b.reviews, j) ==> j == i;
    } else {
      assert forall j :: !IsAgreement(b.reviews, j);
    }
  }

  lemma ResponseKeepsInv(d: Deal, o: Order, who: Party, i: int, answer: Answer)
    requires Inv(d, o) && Respond(d, o, who, i, answer).Done?
    ensures Inv(d, Respond(d, o, who, i, answer).order)
  {
    match answer
    case Accept => AcceptKeepsInv(d, o, who, i);
    case Reject =>
      Answered(d, o, i, Rejected);
    case Counter(price, cancelling) =>
      Answered(d, o, i, Countered);
      RoundedMinimum(d, price.value);
      AppendKeepsInv(d, SetReview(o, i, Countered), Respond(d, o, who, i, answer).order.reviews[|o.reviews|]);
  }

  /** The BUY branch of the buyer's decision can never succeed: an agreement has already decided. */
  lemma BuyBranchIsDead(d: Deal, o: Order)
    requires Inv(d, o)
    ensures Decide(d, o, true).Refused?
  {
  }

  lemma EventKeepsInv(d: Deal, o: Order, e: Event)
    requires Inv(d, o)
    ensures Inv(d, Happen(o, e))
  {
    var b := Happen(o, e);
    forall i | 0 <= i < |b.reviews| ensures ReviewOk(d, b, i) {
      assert ReviewOk(d, o, i);
    }
  }

  lemma DecisionKeepsInv(d: Deal, o: Order, buy: bool)
    requires Inv(d, o) && Decide(d, o, buy).Done?
    ensures Inv(d, Decide(d, o, buy).order)
  {
    var b := Decide(d, o, buy).order;
    BuyBranchIsDead(d, o);
    forall i | 0 <= i < |b.reviews| ensures ReviewOk(d, b, i) {
      assert ReviewOk(d, o, i);
    }
  }

  ghost predicate Sound(d: Deal, s: Sys) {
    Inv(d, s.order) && forall i :: 0 <= i < |s.proposals| ==> Admit(d, s.proposals[i]) == None
  }

  lemma StepIsSound(d: Deal, s: Sys, step: Step)
    requires Sound(d, s)
    ensures Sound(d, Next(d, s, step))
  {
    match step
    case ReadProposal(_, _, _) =>
    case RunProposal(i) =>
      if 0 <= i < |s.proposals| && Commit(s.proposals[i], s.order).Done? {
        ProposalKeepsInv(d, s.proposals[i], s.order);
      }
    case RunResponse(who, i, answer) =>
      if Respond(d, s.order, who, i, answer).Done? { ResponseKeepsInv(d, s.order, who, i, answer); }
    case RunDecision(buy) => if Decide(d, s.order, buy).Done? { DecisionKeepsInv(d, s.order, buy); }
    case Elsewhere(e) => EventKeepsInv(d, s.order, e);
  }

  // --------------------------------------------------------------------------
  // Whole runs
  // --------------------------------------------------------------------------

  lemma {:induction false} RunsAreSound(d: Deal, start: Order, steps: seq<Step>)
    requires IsStart(d, start)
    ensures Sound(d, After(d, start, steps))
  {
    if steps != [] {
      RunsAreSound(d, start, steps[..|steps| - 1]);
      StepIsSound(d, After(d, start, steps[..|steps| - 1]), steps[|steps| - 1]);
    }
  }

  /** One review awaits an answer at a time; proposers alternate; a cancellation request is accepted or countered. */
  lemma {:induction false} ReviewChains(d: Deal, start: Order, steps: seq<Step>, i: int)
    requires IsStart(d, start) && 0 <= i < |After(d, start, steps).order.reviews|
    ensures var o := After(d, start, steps).order;
      && (forall j :: IsPending(o.reviews, i) && IsPending(o.reviews, j) ==> i == j)
      && (o.reviews[i].parent.Some? ==>
           var p := o.reviews[i].parent.value;
           0 <= p < i && o.reviews[p].status == Countered && o.reviews[p].proposer != o.reviews[i].proposer)
      && (o.reviews[i].cancelling ==> o.reviews[i].status in {Pending, Accepted, Countered})
  {
    RunsAreSound(d, start, steps);
    assert ReviewOk(d, After(d, start, steps).order, i);
  }

  /**
   The agreed price is bilateral: the decision is BUY exactly when one review, and one only, was
   accepted as a price, and that price is the order's. No decision to buy is ever made any other way.
   */
  lemma {:induction false} AgreedPriceIsBilateral(d: Deal, start: Order, steps: seq<Step>)
    requires IsStart(d, start)
    ensures var o := After(d, start, steps).order;
      && (o.decision == Buy <==>
           exists i :: IsAgreement(o.reviews, i) && o.reviews[i].price == o.finalPrice &&
             forall j :: IsAgreement(o.reviews, j) ==> j == i)
      && Decide(d, o, true).Refused?
  {
    RunsAreSound(d, start, steps);
    var o := After(d, start, steps).order;
    BuyBranchIsDead(d, o);
    if o.decision == Buy {
      var i :| IsAgreement(o.reviews, i);
      assert forall j :: IsAgreement(o.reviews, j) ==> j == i;
    }
  }

  lemma StepFreezesPrice(d: Deal, s: Sys, step: Step)
    requires Sound(d, s) && s.order.decision == Buy
    ensures Next(d, s, step).order.decision == Buy
    ensures Next(d, s, step).order.finalPrice == s.order.finalPrice
  {
  }

  /** Once bought, the price is frozen, whatever is still in flight. */
  lemma {:induction false} PriceIsFrozen(d: Deal, start: Order, steps: seq<Step>, more: seq<Step>)
    requires IsStart(d, start) && After(d, start, steps).order.decision == Buy
    ensures After(d, start, steps + more).order.decision == Buy
    ensures After(d, start, steps + more).order.finalPrice == After(d, start, steps).order.finalPrice
  {
    if more == [] {
      assert steps + more == steps;
    } else {
      var prefix := steps + more[..|more| - 1];
      assert (steps + more)[..|steps + more| - 1] == prefix;
      PriceIsFrozen(d, start, steps, more[..|more| - 1]);
      RunsAreSound(d, start, prefix);
      StepFreezesPrice(d, After(d, start, prefix), more[|more| - 1]);
    }
  }

  /** The order's price is never more than half a cent under the seller's minimum for the quantity. */
  lemma {:induction false} PriceStaysAboveMinimum(d: Deal, start: Order, steps: seq<Step>)
    requires IsStart(d, start) && MinimumTotal(d) > 0.0
    ensures After(d, start, steps).order.finalPrice as real >= 100.0 * MinimumTotal(d) - 0.5
  {
    RunsAreSound(d, start, steps);
  }

  /** The half cent is real: a price of exactly the minimum may be stored below it. */
  lemma HalfACentIsLost()
    ensures var d := Deal(true, Some(0.0333), 1.0);
      !BelowMinimum(d, 0.0333) && Cents(0.0333) as real < 100.0 * MinimumTotal(d)
  {
    assert Cents(0.0333) == 3;
  }

  /** A proposal read before an agreement may still be stored after it, but nobody can act on it any more. */
  lemma {:induction false} LateProposalIsInert(d: Deal, start: Order, steps: seq<Step>, who: Party, i: int, answer: Answer)
    requires IsStart(d, start) && After(d, start, steps).order.decision == Buy
    ensures Respond(d, After(d, start, steps).order, who, i, answer) == Refused(409)
  {
  }

  // --------------------------------------------------------------------------
  // The handlers, as they run
  // --------------------------------------------------------------------------

  class Exchange {
    const deal: Deal
    var state: State
    var decision: Decision
    var finalPrice: int
    var reviews: seq<Review>
    var reported: bool
    var goodsPaymentOpen: bool
    var goodsMoving: bool

    constructor (deal: Deal, finalPrice: int)
      requires NotUnderMinimum(deal, finalPrice)
      ensures this.deal == deal && IsStart(deal, Snapshot()) && this.finalPrice == finalPrice
    {
      this.deal := deal;
      state, decision, this.finalPrice, reviews := Live, Undecided, finalPrice, [];
      reported, goodsPaymentOpen, goodsMoving := false, false, false;
    }

    function Snapshot(): Order
      reads this
    {
      Order(state, decision, finalPrice, reviews, reported, goodsPaymentOpen, goodsMoving)
    }

    /** updateMany where the review is still pending. */
    method Claim(i: int, status: ReviewStatus) returns (claimed: bool)
      requires 0 <= i < |reviews|
      modifies this`reviews
      ensures claimed == (old(reviews)[i].status == Pending)
      ensures reviews == if claimed then old(reviews)[i := old(reviews)[i].(status := status)] else old(reviews)
    {
      claimed := reviews[i].status == Pending;
      if claimed {
        reviews := reviews[i := reviews[i].(status := status)];
      }
    }

    method Propose(p: Proposal) returns (refused: Option<int>)
      requires p.cancelling || p.price.Some?
      modifies this`reviews
      ensures match Commit(p, old(Snapshot()))
        case Done(o) => refused == None && Snapshot() == o
        case Refused(code) => refused == Some(code) && Snapshot() == old(Snapshot())
    {
      if state == Cancelled || state == Completed || state == Disputed {
        return Some(409);
      }
      if HasPending(reviews) {
        return Some(409);
      }
      var price := finalPrice;
      if p.price.Some? {
        price := Cents(p.price.value);
      }
      if !p.cancelling && p.proposer != Buyer && p.price.value * 100.0 == finalPrice as real {
        return Some(400);
      }
      reviews := reviews + [Review(p.proposer, price, p.cancelling, Pending, None)];
      refused := None;
    }

    /** A refusal after the claim rolls the transaction back, so the checks that can refuse come first here. */
    method Answer(who: Party, i: int, answer: Answer) returns (refused: Option<int>)
      modifies this
      ensures match Respond(deal, old(Snapshot()), who, i, answer)
        case Done(o) => refused == None && Snapshot() == o
        case Refused(code) => refused == Some(code) && Snapshot() == old(Snapshot())
    {
      if state != Live || goodsPaymentOpen || decision == Buy {
        return Some(409);
      }
      if !(0 <= i < |reviews|) {
        return Some(404);
      }
      var review := reviews[i];
      if review.status != Pending {
        return Some(409);
      }
      if review.proposer == who {
        return Some(403);
      }
      match answer {
        case Accept =>
          if review.cancelling && goodsMoving {
            return Some(400);
          }
          var _ := Claim(i, Accepted);
          if review.cancelling {
            decision := Cancel;
            state := Cancelled;
          } else {
            finalPrice := review.price;
            decision := Buy;
          }
        case Reject =>
          if review.cancelling {
            return Some(400);
          }
          var _ := Claim(i, Rejected);
        case Counter(price, cancelling) =>
          if price.None? || price.value <= 0.0 || cancelling.None? {
            return Some(400);
          }
          if !review.cancelling && price.value * 100.0 == review.price as real {
            return Some(400);
          }
          if BelowMinimum(deal, price.value) {
            return Some(409);
          }
          var _ := Claim(i, Countered);
          reviews := reviews + [Review(who, Cents(price.value), cancelling.value, Pending, Some(i))];
      }
      refused := None;
    }

    method DecideToBuyOrCancel(buy: bool) returns (refused: Option<int>)
      modifies this
      ensures match Decide(deal, old(Snapshot()), buy)
        case Done(o) => refused == None && Snapshot() == o
        case Refused(code) => refused == Some(code) && Snapshot() == old(Snapshot())
    {
      if !deal.isGoods {
        return Some(400);
      }
      if state != Live {
        return Some(409);
      }
      if buy && (HasPending(reviews) || !HasAgreement(reviews)) {
        return Some(409);
      }
      if decision != Undecided || !reported {
        return Some(409);
      }
      if buy {
        decision := Buy;
      } else {
        if goodsMoving {
          return Some(400);
        }
        decision := Cancel;
        state := Cancelled;
      }
      refused := None;
    }
  }
}
