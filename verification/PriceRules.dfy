/** When the price exchange lets a party propose, answer or decide, and what that leaves behind, as one table. */
module PriceRules {
  import opened Money
  import opened PriceReviews
  import AgreedPrices

  // --------------------------------------------------------------------------
  // Proposing
  // --------------------------------------------------------------------------

  /** The listing's floor for the whole quantity, where it has one. */
  predicate MeetsFloor(d: Deal, price: real) {
    d.minUnitPrice.Some? && 0.0 < d.minUnitPrice.value * d.quantity ==> d.minUnitPrice.value * d.quantity <= price
  }

  predicate NonePending(o: Order) {
    forall i :: 0 <= i < |o.reviews| ==> o.reviews[i].status != Pending
  }

  lemma PendingMeans(o: Order)
    ensures HasPending(o.reviews) <==> !NonePending(o)
  {
    if !NonePending(o) {
      var i :| 0 <= i < |o.reviews| && o.reviews[i].status == Pending;
      assert IsPending(o.reviews, i);
    }
  }

  /** Goods whose inspection is reported, an order that is running, unpaid and undecided, and nothing left to answer. */
  predicate IsOpenForProposals(d: Deal, o: Order) {
    d.isGoods && o.state == Live && o.decision == Undecided && o.reported && !o.goodsPaymentOpen && NonePending(o)
  }

  /** A buyer may ask to walk away, or for a price no higher than the order's; a seller names any price; none is free. */
  predicate IsFairProposal(d: Deal, p: Proposal) {
    if p.cancelling then p.proposer == Buyer && (p.price.Some? ==> 0.0 < p.price.value)
    else
      && p.price.Some? && 0.0 < p.price.value && MeetsFloor(d, p.price.value)
      && (p.proposer == Buyer ==> p.price.value * 100.0 <= p.at.finalPrice as real)
  }

  lemma ProposalIsAdmittedIff(d: Deal, p: Proposal)
    ensures Admit(d, p) == None <==> IsOpenForProposals(d, p.at) && IsFairProposal(d, p)
    ensures Admit(d, p) == Some(403) <==> IsOpenForProposals(d, p.at) && p.cancelling && p.proposer == Seller
  {
    PendingMeans(p.at);
  }

  /** Later it is stored precisely if the order still runs, nothing is pending, and a seller's price is a new one. */
  lemma ProposalIsStoredIff(p: Proposal, o: Order)
    requires p.cancelling || p.price.Some?
    ensures Commit(p, o).Done? <==>
      o.state == Live && NonePending(o) && (p.proposer == Seller && !p.cancelling ==> p.price.value * 100.0 != o.finalPrice as real)
    ensures Commit(p, o).Done? ==>
      var v := Commit(p, o).order;
      && |v.reviews| == |o.reviews| + 1
      && v == o.(reviews := o.reviews + [v.reviews[|o.reviews|]])
      && var r := v.reviews[|o.reviews|];
         && r == Review(p.proposer, r.price, p.cancelling, Pending, None)
         && (if p.price.Some? then AgreedPrices.IsNearestCent(r.price, p.price.value) else r.price == o.finalPrice)
  {
    PendingMeans(o);
  }

  // --------------------------------------------------------------------------
  // Answering
  // --------------------------------------------------------------------------

  predicate IsAnswerable(o: Order, who: Party, i: int) {
    && o.state == Live && !o.goodsPaymentOpen && o.decision != Buy
    && 0 <= i < |o.reviews| && o.reviews[i].status == Pending && o.reviews[i].proposer != who
  }

  /** A request to cancel cannot be turned down, only accepted or countered; and accepting it takes goods at rest. */
  predicate MayAnswer(d: Deal, o: Order, i: int, answer: Answer)
    requires 0 <= i < |o.reviews|
  {
    var r := o.reviews[i];
    match answer
    case Accept => r.cancelling ==> !o.goodsMoving
    case Reject => !r.cancelling
    case Counter(price, cancelling) =>
      && price.Some? && 0.0 < price.value && MeetsFloor(d, price.value) && cancelling.Some?
      && (!r.cancelling ==> price.value * 100.0 != r.price as real)
  }

  lemma AnswerIsTakenIff(d: Deal, o: Order, who: Party, i: int, answer: Answer)
    ensures Respond(d, o, who, i, answer).Done? <==> IsAnswerable(o, who, i) && MayAnswer(d, o, i, answer)
  {
  }

  /** The review answered changes its status; the rest of the order changes only as the answer says. */
  ghost predicate IsAnswered(o: Order, v: Order, i: int, status: ReviewStatus, added: seq<Review>)
    requires 0 <= i < |o.reviews|
  {
    v.reviews == o.reviews[i := o.reviews[i].(status := status)] + added
  }

  lemma AnswerChanges(d: Deal, o: Order, who: Party, i: int, answer: Answer)
    requires Respond(d, o, who, i, answer).Done?
    ensures var v, r := Respond(d, o, who, i, answer).order, o.reviews[i];
      match answer
      case Accept =>
        && IsAnswered(o, v, i, Accepted, [])
        && v == if r.cancelling then o.(reviews := v.reviews, decision := Cancel, state := Cancelled)
                else o.(reviews := v.reviews, decision := Buy, finalPrice := r.price)
      case Reject => IsAnswered(o, v, i, Rejected, []) && v == o.(reviews := v.reviews)
      case Counter(price, cancelling) =>
        && |v.reviews| == |o.reviews| + 1 && v == o.(reviews := v.reviews)
        && var c := v.reviews[|o.reviews|];
           && IsAnswered(o, v, i, Countered, [Review(who, c.price, cancelling.value, Pending, Some(i))])
           && AgreedPrices.IsNearestCent(c.price, price.value)
  {
  }

  // --------------------------------------------------------------------------
  // Deciding
  // --------------------------------------------------------------------------

  /** In every reachable order the buyer's decision can only be to cancel: goods at rest, reported, not decided yet. */
  lemma {:induction false} DecisionIsTakenIff(d: Deal, start: Order, steps: seq<Step>, buy: bool)
    requires IsStart(d, start)
    ensures var o := After(d, start, steps).order;
      && (Decide(d, o, buy).Done? <==>
           !buy && d.isGoods && o.state == Live && o.decision == Undecided && o.reported && !o.goodsMoving)
      && (Decide(d, o, buy).Done? ==> Decide(d, o, buy).order == o.(decision := Cancel, state := Cancelled))
  {
    RunsAreSound(d, start, steps);
    BuyBranchIsDead(d, After(d, start, steps).order);
  }

  /** The decision's own guard, agreement or not. */
  lemma DecidingNeeds(d: Deal, o: Order, buy: bool)
    ensures Decide(d, o, buy).Done? <==>
      && d.isGoods && o.state == Live && o.decision == Undecided && o.reported
      && if buy then NonePending(o) && (exists i :: IsAgreement(o.reviews, i)) else !o.goodsMoving
  {
    PendingMeans(o);
    assert HasAgreement(o.reviews) <==> exists i :: IsAgreement(o.reviews, i);
  }
}
