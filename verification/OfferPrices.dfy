/** Where the prices of offers and orders come from: every one was named by a step of the run. */
module OfferPrices {
  import opened Money
  import opened Offers
  import opened OfferSafety

  /** The step that brought the offer: its bid, or the counter of the side that the row says. */
  predicate Brings(step: Step, o: Offer) {
    match o.parent
    case None => step == Create(o.buyer, o.amount, o.quantity, o.expiresAt) && o.counterAmount == None && o.counteredBy == None
    case Some(p) =>
      && o.counterAmount == Some(o.amount)
      && ((o.counteredBy == Some(Buyer) && step.ReCounter?) || (o.counteredBy == Some(Seller) && step.Counter?))
      && step.offer == p && step.price == o.amount && step.expiry == o.expiresAt
  }

  ghost predicate WasBrought(steps: seq<Step>, o: Offer) {
    exists n :: 0 <= n < |steps| && Brings(steps[n], o)
  }

  /** A counter is for the buyer and the quantity of the offer it answers. */
  predicate KeepsItsDeal(offers: seq<Offer>, o: Offer) {
    o.parent.Some? ==>
      && 0 <= o.parent.value < |offers|
      && offers[o.parent.value].buyer == o.buyer && offers[o.parent.value].quantity == o.quantity
  }

  /** The order is for its offer's buyer and quantity, at the price that the offer names. */
  predicate IsOrderOf(r: Order, o: Offer) {
    r.unitPrice == o.amount && r.buyer == o.buyer && r.quantity == o.quantity
  }

  ghost predicate Brought(steps: seq<Step>, w: World) {
    && (forall i :: 0 <= i < |w.offers| ==> WasBrought(steps, w.offers[i]) && KeepsItsDeal(w.offers, w.offers[i]))
    && (forall k :: 0 <= k < |w.orders| ==> 0 <= w.orders[k].offer < |w.offers| && IsOrderOf(w.orders[k], w.offers[w.orders[k].offer]))
  }

  lemma BroughtLonger(steps: seq<Step>, step: Step, a: Offer, b: Offer)
    requires WasBrought(steps, a) && SameRow(a, b)
    ensures WasBrought(steps + [step], b)
  {
    var n :| 0 <= n < |steps| && Brings(steps[n], a);
    assert Brings((steps + [step])[n], b);
  }

  lemma NewOfferIsBrought(w: World, step: Step)
    requires RowsOk(w.offers) && Try(w, step).Some? && (step.Create? || IsCounter(step))
    ensures var offers := Next(w, step).offers;
      && |offers| == |w.offers| + 1
      && Brings(step, offers[|w.offers|]) && KeepsItsDeal(offers, offers[|w.offers|])
  {
  }

  lemma OffersStayBrought(steps: seq<Step>, w: World, step: Step)
    requires Inv(w) && Brought(steps, w)
    ensures var offers := Next(w, step).offers;
      forall i :: 0 <= i < |offers| ==> WasBrought(steps + [step], offers[i]) && KeepsItsDeal(offers, offers[i])
  {
    var v := Next(w, step);
    RowsStay(w, step);
    StepAddsAtMostOne(w, step);
    forall i | 0 <= i < |v.offers| ensures WasBrought(steps + [step], v.offers[i]) && KeepsItsDeal(v.offers, v.offers[i]) {
      if i < |w.offers| {
        assert SameRow(w.offers[i], v.offers[i]) && KeepsItsDeal(w.offers, w.offers[i]);
        BroughtLonger(steps, step, w.offers[i], v.offers[i]);
        if w.offers[i].parent.Some? {
          assert SameRow(w.offers[w.offers[i].parent.value], v.offers[w.offers[i].parent.value]);
        }
      } else {
        NewOfferIsBrought(w, step);
        assert (steps + [step])[|steps|] == step;
      }
    }
  }

  lemma StepAddsAtMostOne(w: World, step: Step)
    requires RowsOk(w.offers)
    ensures |Next(w, step).offers| <= |w.offers| + 1
    ensures |Next(w, step).offers| > |w.offers| ==> Try(w, step).Some? && (step.Create? || IsCounter(step))
  {
    if Try(w, step).Some? && !step.Create? && !IsCounter(step) {
      StepSettles(w, step);
    }
  }

  lemma OrdersStayBrought(steps: seq<Step>, w: World, step: Step)
    requires Inv(w) && Brought(steps, w)
    ensures var v := Next(w, step);
      forall k :: 0 <= k < |v.orders| ==> 0 <= v.orders[k].offer < |v.offers| && IsOrderOf(v.orders[k], v.offers[v.orders[k].offer])
  {
    var v := Next(w, step);
    RowsStay(w, step);
    if IsAcceptance(step) && Try(w, step).Some? {
      AcceptanceMakesTheOrder(w, step);
      assert RowOk(w.offers, step.offer) && WasBrought(steps, w.offers[step.offer]);
      assert SameRow(w.offers[step.offer], v.offers[step.offer]);
    } else {
      StepMovesOrders(w, step);
    }
    forall k | 0 <= k < |w.orders|
      ensures 0 <= v.orders[k].offer < |v.offers| && IsOrderOf(v.orders[k], v.offers[v.orders[k].offer])
    {
      assert OnlyEnds(w.orders[k], v.orders[k]) || v.orders[k] == w.orders[k];
      assert SameRow(w.offers[w.orders[k].offer], v.offers[w.orders[k].offer]);
    }
  }

  lemma {:induction false} RunsAreBrought(available: real, minUnitPrice: Option<int>, steps: seq<Step>)
    ensures Brought(steps, After(Opening(available, minUnitPrice), steps))
  {
    if steps != [] {
      var before, step := steps[..|steps| - 1], steps[|steps| - 1];
      var w := After(Opening(available, minUnitPrice), before);
      RunsAreBrought(available, minUnitPrice, before);
      RunsKeepInv(available, minUnitPrice, before);
      OffersStayBrought(before, w, step);
      OrdersStayBrought(before, w, step);
      assert before + [step] == steps;
    }
  }

  /**
   Every order of every run is for the buyer and the quantity of a bid of that run, at the price of that bid or
   of a counter to it, as a step of the run named it.
   */
  lemma {:induction false} OrderPricesWereNamed(available: real, minUnitPrice: Option<int>, steps: seq<Step>, k: int)
    requires 0 <= k < |After(Opening(available, minUnitPrice), steps).orders|
    ensures var w := After(Opening(available, minUnitPrice), steps);
      && 0 <= w.orders[k].offer < |w.offers|
      && IsOrderOf(w.orders[k], w.offers[w.orders[k].offer])
      && WasBrought(steps, w.offers[w.orders[k].offer]) && KeepsItsDeal(w.offers, w.offers[w.orders[k].offer])
  {
    RunsAreBrought(available, minUnitPrice, steps);
  }
}
