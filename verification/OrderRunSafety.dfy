/** What every run of an order keeps: events in their order, one agreed price, payments that match it. */
module OrderRunSafety {
  import opened Money
  import opened OrderRun
  import PR = PriceReviews

  // --------------------------------------------------------------------------
  // What the rows say has happened
  // --------------------------------------------------------------------------

  ghost predicate InspectionFacts(i: Inspection, seen: set<Event>) {
    && (i.status in {Agreed, InProgress, Stalled, Done} ==> QuoteAccepted in seen)
    && (i.confirmed ==> SellerConfirmed in seen)
    && (i.onSite ==> Arrived in seen)
    && (i.status == InProgress ==> Started in seen)
    && (i.status == Done ==> Reported in seen)
    && (i.feePayments != [] ==> Arrived in seen)
    && (AnyPaid(i.feePayments) || true in i.dues ==> FeePaid in seen)
  }

  ghost predicate JobFacts(j: Job, seen: set<Event>, hired: bool) {
    && JobCreated in seen
    && (hired ==> j.hired)
    && (j.ready ==> PickupReady in seen)
    && (j.arrived ==> TruckArrived in seen)
    && (j.approved ==> LoadingApproved in seen && PickupReady in seen)
    && (j.status == PickedUp ==> Loaded in seen)
    && (j.status == InTransit ==> OnRoad in seen)
    && (j.status == Delivered ==> OnRoad in seen && AtDestination in seen)
  }

  ghost predicate PaymentFacts(s: State, seen: set<Event>) {
    && (s.goods != [] ==> GoodsCreated in seen)
    && (AnyPaid(s.goods) ==> GoodsPaid in seen)
    && (s.transport != [] ==> JobCreated in seen)
    && (AnyPaid(s.transport) ==> TransportPaid in seen)
  }

  ghost predicate Facts(s: State, seen: set<Event>, hired: bool) {
    && (s.inspection.Some? ==> InspectionFacts(s.inspection.value, seen))
    && (s.job.Some? ==> JobFacts(s.job.value, seen, hired) && s.decision == PR.Buy)
    && PaymentFacts(s, seen)
    && (s.reviews != [] ==> Reported in seen && ReviewProposed in seen)
    && (s.decision == PR.Buy ==> Bought in seen)
    && (s.loading != Missing ==> LoadingReported in seen)
    && (s.status == Completed ==> Received in seen)
    && s.resume != Completed
  }

  lemma FactsStay(s: State, a: set<Event>, b: set<Event>, hired: bool)
    requires Facts(s, a, hired) && a <= b
    ensures Facts(s, b, hired)
  {
  }

  function Plus(seen: set<Event>, e: Option<Event>): set<Event> {
    match e case None => seen case Some(v) => seen + {v}
  }

  ghost predicate IsReady(e: Option<Event>, seen: set<Event>, hired: bool) {
    e.Some? ==> Before(e.value, hired) <= seen
  }

  ghost predicate Keeps(o: Outcome, seen: set<Event>, hired: bool) {
    IsReady(o.event, seen, hired) && Facts(o.state, Plus(seen, o.event), hired)
  }

  /** Since a state that was bought, nothing about the price has changed. */
  ghost predicate Frozen(at: State, s: State) {
    at.decision == PR.Buy ==> s.decision == PR.Buy && s.finalPrice == at.finalPrice
  }

  // --------------------------------------------------------------------------
  // Handlers keep the facts
  // --------------------------------------------------------------------------

  lemma PaidFeeWasPaid(i: Inspection, seen: set<Event>)
    requires InspectionFacts(i, seen) && (FeeIsPaid(i) || ReportFeeIsPaid(i))
    ensures FeePaid in seen
  {
    if i.dues != [] {
      var first := i.dues[0];
      assert first in i.dues;
      assert first == true;
    } else if FeeIsPaid(i) {
      var k :| 0 <= k < |i.feePayments| && i.feePayments[k] == Payment(i.fee, Paid);
      assert i.feePayments[k].status == Paid;
    }
  }

  lemma InspectionHandlersKeepFacts(l: Listing, c: Call, s: State, seen: set<Event>, hired: bool)
    requires Facts(s, seen, hired) && Facts(c.at, seen, hired) && Admit(l, c) && Commit(c, s).Some?
    requires c.action.Start? || c.action.Report?
    ensures Keeps(Commit(c, s).value, seen, hired)
  {
    PaidFeeWasPaid(c.at.inspection.value, seen);
  }

  lemma ProposalKeepsFacts(l: Listing, c: Call, s: State, seen: set<Event>, hired: bool)
    requires Facts(s, seen, hired) && Facts(c.at, seen, hired) && Admit(l, c) && Commit(c, s).Some?
    requires c.action.Propose?
    ensures Keeps(Commit(c, s).value, seen, hired)
  {
    assert ReportIsIn(c.at);
  }

  lemma TransportHandlersKeepFacts(l: Listing, c: Call, s: State, seen: set<Event>, hired: bool)
    requires Facts(s, seen, hired) && Facts(c.at, seen, hired) && Admit(l, c) && Commit(c, s).Some?
    requires l.deal.isGoods && Frozen(c.at, s)
    requires c.action.CreateJob? || c.action.ConfirmPickup? || c.action.ConfirmTruck?
    requires hired && c.action.CreateJob? ==> c.action.hiredTruck
    ensures Keeps(Commit(c, s).value, seen, hired)
  {
  }

  lemma LoadingHandlersKeepFacts(l: Listing, c: Call, s: State, seen: set<Event>, hired: bool)
    requires Facts(s, seen, hired) && Facts(c.at, seen, hired) && Admit(l, c) && Commit(c, s).Some?
    requires c.action.ReportLoading? || c.action.ApproveLoading?
    ensures Keeps(Commit(c, s).value, seen, hired)
  {
  }

  lemma AppendedPayment(ps: seq<Payment>, p: Payment)
    requires p.status != Paid && AnyPaid(ps + [p])
    ensures AnyPaid(ps)
  {
    var i :| 0 <= i < |ps + [p]| && (ps + [p])[i].status == Paid;
    assert ps[i].status == Paid;
  }

  lemma PayingGoodsKeepsFacts(l: Listing, c: Call, s: State, seen: set<Event>, hired: bool)
    requires Facts(s, seen, hired) && Facts(c.at, seen, hired) && Admit(l, c) && Commit(c, s).Some?
    requires c.action.PayGoods?
    ensures Keeps(Commit(c, s).value, seen, hired)
  {
    var p := Payment(PR.Cents(c.action.amount), Pending);
    if AnyPaid(s.goods + [p]) {
      AppendedPayment(s.goods, p);
    }
  }

  /** An order follows its transport without ever becoming completed by it. */
  lemma MoveOrderOnlyMoves(s: State, next: JobStatus)
    ensures MoveOrder(s, next) == s.(status := MoveOrder(s, next).status)
    ensures MoveOrder(s, next).status in {s.status, OnTheWay, HandedOver}
  {
  }

  lemma MovementKeepsFacts(l: Listing, c: Call, s: State, seen: set<Event>, hired: bool)
    requires Facts(s, seen, hired) && Facts(c.at, seen, hired) && Admit(l, c) && Commit(c, s).Some?
    requires c.action.MoveJob?
    ensures Keeps(Commit(c, s).value, seen, hired)
  {
    var next := c.action.next;
    var t := s.(job := Some(s.job.value.(status := next)));
    MoveOrderOnlyMoves(t, next);
    var after := Plus(seen, JobEvent(next));
    assert JobFacts(t.job.value, after, hired);
    assert Facts(t, after, hired) by {
      FactsStay(s, seen, after, hired);
    }
  }

  lemma ClosingKeepsFacts(l: Listing, c: Call, s: State, seen: set<Event>, hired: bool)
    requires Facts(s, seen, hired) && Facts(c.at, seen, hired) && Admit(l, c) && Commit(c, s).Some?
    requires c.action.Dispute? || c.action.ConfirmReceipt?
    ensures Keeps(Commit(c, s).value, seen, hired)
  {
  }

  lemma {:induction false} CommitKeepsFacts(l: Listing, c: Call, s: State, seen: set<Event>, hired: bool)
    requires Facts(s, seen, hired) && Facts(c.at, seen, hired) && Admit(l, c) && Commit(c, s).Some?
    requires l.deal.isGoods && Frozen(c.at, s)
    requires hired && c.action.CreateJob? ==> c.action.hiredTruck
    ensures Keeps(Commit(c, s).value, seen, hired)
  {
    if c.action.Start? || c.action.Report? {
      InspectionHandlersKeepFacts(l, c, s, seen, hired);
    } else if c.action.Propose? {
      ProposalKeepsFacts(l, c, s, seen, hired);
    } else if c.action.PayGoods? {
      PayingGoodsKeepsFacts(l, c, s, seen, hired);
    } else if c.action.MoveJob? {
      MovementKeepsFacts(l, c, s, seen, hired);
    } else if c.action.Dispute? || c.action.ConfirmReceipt? {
      ClosingKeepsFacts(l, c, s, seen, hired);
    } else if c.action.ReportLoading? || c.action.ApproveLoading? {
      LoadingHandlersKeepFacts(l, c, s, seen, hired);
    } else {
      TransportHandlersKeepFacts(l, c, s, seen, hired);
    }
  }

  // --------------------------------------------------------------------------
  // Single transactions keep the facts
  // --------------------------------------------------------------------------

  lemma AdoptKeepsFacts(s: State, o: PR.Order, seen: set<Event>, hired: bool)
    requires Facts(s, seen, hired)
    requires o.decision == PR.Buy ==> Bought in seen
    requires o.reviews != [] ==> Reported in seen && ReviewProposed in seen
    requires s.decision == PR.Buy ==> o.decision == PR.Buy
    ensures Facts(Adopt(s, o), seen, hired)
  {
  }

  lemma ExchangeKeepsFacts(l: Listing, s: State, d: Deed, seen: set<Event>, hired: bool)
    requires Facts(s, seen, hired) && (d.Respond? || d.Decide?)
    ensures Keeps(Do(l, s, d), seen, hired)
  {
    match d
    case Respond(who, i, answer) =>
      var r := PR.Respond(l.deal, View(s), who, i, answer);
      if r.Done? {
        assert s.reviews[i].status == PR.Pending;
        AdoptKeepsFacts(s, r.order, Plus(seen, Do(l, s, d).event), hired);
      }
    case Decide(buy) =>
      var r := PR.Decide(l.deal, View(s), buy);
      if r.Done? {
        AdoptKeepsFacts(s, r.order, Plus(seen, Do(l, s, d).event), hired);
      }
  }

  lemma MovedPayment(ps: seq<Payment>, i: int, to: PayStatus)
    requires 0 <= i < |ps| && to != Paid && AnyPaid(ps[i := ps[i].(status := to)])
    ensures AnyPaid(ps)
  {
    var qs := ps[i := ps[i].(status := to)];
    var j :| 0 <= j < |qs| && qs[j].status == Paid;
    assert ps[j].status == Paid;
  }

  /** A purse with one payment moved, and its event seen if the payment is now paid. */
  lemma SettingPurseKeepsFacts(s: State, purse: Purse, ps: seq<Payment>, seen: set<Event>, hired: bool)
    requires Facts(s, seen, hired) && |ps| == |Purses(s, purse)|
    requires AnyPaid(ps) ==> PaidEvent(purse) in seen
    ensures Facts(SetPurse(s, purse, ps), seen, hired)
  {
  }

  lemma SettledKeepsFacts(s: State, purse: Purse, seen: set<Event>, hired: bool)
    requires Facts(s, seen, hired)
    ensures Facts(Settled(s, purse), seen, hired)
  {
  }

  lemma PaymentMoveOutcome(l: Listing, s: State, d: Deed, t: State)
    requires d.PaymentMoves? && 0 <= d.index < |Purses(s, d.purse)| && MaySettle(Purses(s, d.purse)[d.index].status, d.to)
    requires t == SetPurse(s, d.purse, Purses(s, d.purse)[d.index := Purses(s, d.purse)[d.index].(status := d.to)])
    ensures Do(l, s, d) ==
      Outcome(if d.to == Paid && d.effective then Settled(t, d.purse) else t, if d.to == Paid then Some(PaidEvent(d.purse)) else None)
  {
  }

  /** The payment's event was due, and with it seen the purse may hold the moved payment. */
  lemma MovedPurseKeepsFacts(s: State, purse: Purse, i: int, to: PayStatus, seen: set<Event>, hired: bool)
    requires Facts(s, seen, hired) && 0 <= i < |Purses(s, purse)|
    ensures var event := if to == Paid then Some(PaidEvent(purse)) else None;
      && IsReady(event, seen, hired)
      && Facts(SetPurse(s, purse, Purses(s, purse)[i := Purses(s, purse)[i].(status := to)]), Plus(seen, event), hired)
  {
    var ps := Purses(s, purse);
    var qs := ps[i := ps[i].(status := to)];
    var after := Plus(seen, if to == Paid then Some(PaidEvent(purse)) else None);
    FactsStay(s, seen, after, hired);
    if to != Paid && AnyPaid(qs) {
      MovedPayment(ps, i, to);
    }
    SettingPurseKeepsFacts(s, purse, qs, after, hired);
  }

  lemma {:induction false} PaymentMoveKeepsFacts(l: Listing, s: State, d: Deed, seen: set<Event>, hired: bool)
    requires Facts(s, seen, hired) && d.PaymentMoves?
    ensures Keeps(Do(l, s, d), seen, hired)
  {
    var ps := Purses(s, d.purse);
    if 0 <= d.index < |ps| && MaySettle(ps[d.index].status, d.to) {
      var t := SetPurse(s, d.purse, ps[d.index := ps[d.index].(status := d.to)]);
      MovedPurseKeepsFacts(s, d.purse, d.index, d.to, seen, hired);
      SettledKeepsFacts(t, d.purse, Plus(seen, if d.to == Paid then Some(PaidEvent(d.purse)) else None), hired);
      PaymentMoveOutcome(l, s, d, t);
    } else {
      assert Do(l, s, d) == Quietly(s);
    }
  }

  lemma InspectionDeedKeepsFacts(l: Listing, s: State, d: Deed, seen: set<Event>, hired: bool)
    requires Facts(s, seen, hired)
    requires d.RequestInspection? || d.ReopenInspection? || d.StallInspection? || d.DropInspection? || d.SyncDues?
    ensures Keeps(Do(l, s, d), seen, hired)
  {
  }

  lemma InspectionProgressKeepsFacts(l: Listing, s: State, d: Deed, seen: set<Event>, hired: bool)
    requires Facts(s, seen, hired)
    requires d.AcceptQuote? || d.SellerConfirms? || d.ConfirmArrival?
    ensures Keeps(Do(l, s, d), seen, hired)
  {
  }

  lemma PayingFeeKeepsFacts(l: Listing, s: State, amount: int, seen: set<Event>, hired: bool)
    requires Facts(s, seen, hired)
    ensures Keeps(Do(l, s, PayFee(amount)), seen, hired)
  {
    if s.inspection.Some? && AnyPaid(s.inspection.value.feePayments + [Payment(amount, Pending)]) {
      AppendedPayment(s.inspection.value.feePayments, Payment(amount, Pending));
    }
  }

  lemma PayingTransportKeepsFacts(l: Listing, s: State, amount: int, seen: set<Event>, hired: bool)
    requires Facts(s, seen, hired)
    ensures Keeps(Do(l, s, PayTransport(amount)), seen, hired)
  {
    if AnyPaid(s.transport + [Payment(amount, Pending)]) {
      AppendedPayment(s.transport, Payment(amount, Pending));
    }
  }

  lemma TransportDeedKeepsFacts(l: Listing, s: State, d: Deed, seen: set<Event>, hired: bool)
    requires Facts(s, seen, hired)
    requires d.TakeTransport? || d.ReleaseTransport? || d.DropTransport?
    ensures Keeps(Do(l, s, d), seen, hired)
  {
  }

  lemma CancellingKeepsFacts(l: Listing, s: State, d: Deed, seen: set<Event>, hired: bool)
    requires Facts(s, seen, hired)
    requires d.Dismiss? || d.CancelInspectionService? || d.CancelTransportService?
    ensures Keeps(Do(l, s, d), seen, hired)
  {
  }

  lemma CancelAllKeepsFacts(s: State, seen: set<Event>, hired: bool)
    requires Facts(s, seen, hired)
    ensures Facts(CancelAll(s), seen, hired)
  {
  }

  lemma {:induction false} DeedKeepsFacts(l: Listing, s: State, d: Deed, seen: set<Event>, hired: bool)
    requires Facts(s, seen, hired)
    ensures Keeps(Do(l, s, d), seen, hired)
  {
    if d.Respond? || d.Decide? {
      ExchangeKeepsFacts(l, s, d, seen, hired);
    } else if d.PaymentMoves? {
      PaymentMoveKeepsFacts(l, s, d, seen, hired);
    } else if d.TakeEffect? {
      SettledKeepsFacts(s, d.paidPurse, seen, hired);
    } else if d.PayFee? {
      PayingFeeKeepsFacts(l, s, d.amount, seen, hired);
    } else if d.PayTransport? {
      PayingTransportKeepsFacts(l, s, d.amount, seen, hired);
    } else if d.TakeTransport? || d.ReleaseTransport? || d.DropTransport? {
      TransportDeedKeepsFacts(l, s, d, seen, hired);
    } else if d.CancelOrder? {
      CancelAllKeepsFacts(s, seen, hired);
    } else if d.Dismiss? || d.CancelInspectionService? || d.CancelTransportService? {
      CancellingKeepsFacts(l, s, d, seen, hired);
    } else if d.AcceptQuote? || d.SellerConfirms? || d.ConfirmArrival? {
      InspectionProgressKeepsFacts(l, s, d, seen, hired);
    } else {
      InspectionDeedKeepsFacts(l, s, d, seen, hired);
    }
  }

  // --------------------------------------------------------------------------
  // The price
  // --------------------------------------------------------------------------

  /** The agreed price and the exchange behind it, and goods payments within a cent of it. */
  ghost predicate Priced(l: Listing, s: State) {
    && PR.Inv(l.deal, View(s))
    && (s.goods != [] ==> s.decision == PR.Buy)
    && (forall i :: 0 <= i < |s.goods| ==> s.finalPrice - 1 <= s.goods[i].amount <= s.finalPrice + 1)
  }

  lemma SamePriceSameInv(d: PR.Deal, a: PR.Order, b: PR.Order)
    requires PR.Inv(d, a)
    requires a.decision == b.decision && a.finalPrice == b.finalPrice && a.reviews == b.reviews
    requires b.decision == PR.Cancel ==> b.state == PR.Cancelled
    ensures PR.Inv(d, b)
  {
    forall i | 0 <= i < |b.reviews| ensures PR.ReviewOk(d, b, i) {
      assert PR.ReviewOk(d, a, i);
    }
  }

  lemma CentsStayClose(amount: real, cents: int)
    requires SameMoney(amount, cents)
    ensures cents - 1 <= PR.Cents(amount) <= cents + 1
  {
  }

  lemma CommitKeepsPrice(l: Listing, c: Call, s: State, seen: set<Event>, hired: bool)
    requires Priced(l, s) && Facts(c.at, seen, hired) && Admit(l, c) && Commit(c, s).Some? && Frozen(c.at, s)
    ensures Priced(l, Commit(c, s).value.state)
    ensures Frozen(s, Commit(c, s).value.state)
  {
    var t := Commit(c, s).value.state;
    if c.action.Propose? {
      PR.ProposalKeepsInv(l.deal, AsProposal(c), View(s));
      SamePriceSameInv(l.deal, PR.Commit(AsProposal(c), View(s)).order, View(t));
    } else {
      if c.action.PayGoods? {
        CentsStayClose(c.action.amount, c.at.finalPrice);
      }
      SamePriceSameInv(l.deal, View(s), View(t));
    }
  }

  lemma ExchangeKeepsPrice(l: Listing, s: State, d: Deed)
    requires Priced(l, s) && (d.Respond? || d.Decide?)
    ensures Priced(l, Do(l, s, d).state) && Frozen(s, Do(l, s, d).state)
  {
    var t := Do(l, s, d).state;
    match d
    case Respond(who, i, answer) =>
      var r := PR.Respond(l.deal, View(s), who, i, answer);
      if r.Done? && !CannotCancel(s, r.order) {
        PR.ResponseKeepsInv(l.deal, View(s), who, i, answer);
        SamePriceSameInv(l.deal, r.order, View(t));
      }
    case Decide(buy) =>
      var r := PR.Decide(l.deal, View(s), buy);
      if r.Done? && !CannotCancel(s, r.order) {
        PR.DecisionKeepsInv(l.deal, View(s), buy);
        SamePriceSameInv(l.deal, r.order, View(t));
      }
  }

  /** Deeds other than the exchange's own do not touch the price, and never bring a cancelled order back. */
  lemma OtherDeedsLeaveThePrice(l: Listing, s: State, d: Deed)
    requires !d.Respond? && !d.Decide?
    ensures var t := Do(l, s, d).state;
      && t.decision == s.decision && t.finalPrice == s.finalPrice && t.reviews == s.reviews
      && (s.status == Cancelled ==> t.status == Cancelled)
      && |t.goods| == |s.goods|
      && forall i :: 0 <= i < |s.goods| ==> t.goods[i].amount == s.goods[i].amount
  {
  }

  lemma {:induction false} DeedKeepsPrice(l: Listing, s: State, d: Deed)
    requires Priced(l, s)
    ensures Priced(l, Do(l, s, d).state) && Frozen(s, Do(l, s, d).state)
  {
    if d.Respond? || d.Decide? {
      ExchangeKeepsPrice(l, s, d);
    } else {
      OtherDeedsLeaveThePrice(l, s, d);
      SamePriceSameInv(l.deal, View(s), View(Do(l, s, d).state));
    }
  }

  // --------------------------------------------------------------------------
  // Traces
  // --------------------------------------------------------------------------

  function Seen(trace: seq<Event>): set<Event> {
    set e | e in trace
  }

  ghost predicate Ordered(trace: seq<Event>, hired: bool) {
    forall i :: 0 <= i < |trace| ==> Before(trace[i], hired) <= Seen(trace[..i])
  }

  lemma {:induction false} Recorded(trace: seq<Event>, e: Event, hired: bool)
    requires Ordered(trace, hired) && Before(e, hired) <= Seen(trace)
    ensures Ordered(trace + [e], hired) && Seen(trace + [e]) == Seen(trace) + {e}
  {
    var t := trace + [e];
    forall i | 0 <= i < |t| ensures Before(t[i], hired) <= Seen(t[..i]) {
      assert t[..i] == trace[..i];
      if i == |trace| {
        assert trace[..i] == trace;
      }
    }
  }

  ghost predicate Sound(l: Listing, w: World, hired: bool) {
    && Ordered(w.trace, hired)
    && Facts(w.state, Seen(w.trace), hired)
    && Priced(l, w.state)
    && (forall i :: 0 <= i < |w.calls| ==> CallOk(l, w, w.calls[i], hired))
  }

  ghost predicate CallOk(l: Listing, w: World, c: Call, hired: bool) {
    && Admit(l, c) && Facts(c.at, Seen(w.trace), hired) && Frozen(c.at, w.state)
    && (hired && c.action.CreateJob? ==> c.action.hiredTruck)
  }

  lemma {:induction false} RecordIsSound(l: Listing, w: World, o: Outcome, hired: bool)
    requires Sound(l, w, hired) && Keeps(o, Seen(w.trace), hired) && Priced(l, o.state) && Frozen(w.state, o.state)
    ensures Sound(l, Record(w, o), hired)
  {
    var v := Record(w, o);
    if o.event.Some? {
      Recorded(w.trace, o.event.value, hired);
    }
    forall i | 0 <= i < |v.calls| ensures CallOk(l, v, v.calls[i], hired) {
      assert CallOk(l, w, w.calls[i], hired);
      FactsStay(w.calls[i].at, Seen(w.trace), Seen(v.trace), hired);
    }
  }

  lemma {:induction false} StepIsSound(l: Listing, w: World, step: Step, hired: bool)
    requires Sound(l, w, hired) && l.deal.isGoods && (hired ==> HiresTransport(step))
    ensures Sound(l, Next(l, w, step), hired)
  {
    match step
    case Read(action) =>
      var v := Next(l, w, step);
      forall i | 0 <= i < |v.calls| ensures CallOk(l, v, v.calls[i], hired) {
        if i < |w.calls| {
          assert CallOk(l, w, w.calls[i], hired);
        }
      }
    case Run(i) =>
      if 0 <= i < |w.calls| && Commit(w.calls[i], w.state).Some? {
        assert CallOk(l, w, w.calls[i], hired);
        CommitKeepsFacts(l, w.calls[i], w.state, Seen(w.trace), hired);
        CommitKeepsPrice(l, w.calls[i], w.state, Seen(w.trace), hired);
        RecordIsSound(l, w, Commit(w.calls[i], w.state).value, hired);
      }
    case Act(d) =>
      DeedKeepsFacts(l, w.state, d, Seen(w.trace), hired);
      DeedKeepsPrice(l, w.state, d);
      RecordIsSound(l, w, Do(l, w.state, d), hired);
  }

  // --------------------------------------------------------------------------
  // Whole runs
  // --------------------------------------------------------------------------

  ghost predicate AllHired(steps: seq<Step>) {
    forall i :: 0 <= i < |steps| ==> HiresTransport(steps[i])
  }

  lemma {:induction false} RunsAreSound(l: Listing, finalPrice: int, steps: seq<Step>, hired: bool)
    requires IsSale(l, finalPrice) && (hired ==> AllHired(steps))
    ensures Sound(l, After(l, finalPrice, steps), hired)
  {
    if steps != [] {
      RunsAreSound(l, finalPrice, steps[..|steps| - 1], hired);
      StepIsSound(l, After(l, finalPrice, steps[..|steps| - 1]), steps[|steps| - 1], hired);
    }
  }

  /** The first n of a can be had from the first m of b by leaving events out. */
  predicate Within(a: seq<Event>, n: int, b: seq<Event>, m: int)
    requires 0 <= n <= |a| && 0 <= m <= |b|
    decreases m
  {
    n == 0 ||
    (0 < m && ((a[n - 1] == b[m - 1] && Within(a, n - 1, b, m - 1)) || Within(a, n, b, m - 1)))
  }

  predicate IsSubsequence(a: seq<Event>, b: seq<Event>) {
    Within(a, |a|, b, |b|)
  }

  lemma {:induction false} WithinMore(a: seq<Event>, n: int, b: seq<Event>, m: int, more: int)
    requires 0 <= n <= |a| && 0 <= m <= more <= |b| && Within(a, n, b, m)
    ensures Within(a, n, b, more)
    decreases more
  {
    if m < more {
      WithinMore(a, n, b, m, more - 1);
    }
  }

  /** The course of an order from the accepted quote to the receipt. */
  const COURSE: seq<Event> := [
    QuoteAccepted, SellerConfirmed, Arrived, Started, Reported, ReviewProposed, Bought, JobCreated, PickupReady,
    TruckArrived, LoadingReported, LoadingApproved, GoodsCreated, GoodsPaid, Loaded, OnRoad, AtDestination, Received]

  ghost predicate IsChain(course: seq<Event>) {
    forall k :: 0 < k < |course| ==> course[k - 1] in Before(course[k], true)
  }

  lemma CourseIsChain()
    ensures IsChain(COURSE) && |COURSE| == 18 && COURSE[17] == Received
  {
  }

  /** Event k of the course, where it happens at i, is preceded by event k - 1. */
  ghost predicate IsLinked(course: seq<Event>, trace: seq<Event>, k: int, i: int)
    requires 0 < k < |course| && 0 <= i < |trace|
  {
    trace[i] == course[k] ==> exists j :: 0 <= j < i && trace[j] == course[k - 1]
  }

  ghost predicate AllLinked(course: seq<Event>, trace: seq<Event>) {
    forall k, i :: 0 < k < |course| && 0 <= i < |trace| ==> IsLinked(course, trace, k, i)
  }

  lemma OrderedLinks(course: seq<Event>, trace: seq<Event>)
    requires Ordered(trace, true) && IsChain(course)
    ensures AllLinked(course, trace)
  {
    forall k, i | 0 < k < |course| && 0 <= i < |trace| ensures IsLinked(course, trace, k, i) {
      if trace[i] == course[k] {
        assert course[k - 1] in Before(course[k], true);
        assert course[k - 1] in Seen(trace[..i]);
        var j :| 0 <= j < i && trace[..i][j] == course[k - 1];
        assert trace[j] == course[k - 1];
      }
    }
  }

  /** An event of a chain is preceded by the whole chain up to it. */
  lemma {:induction false} ChainUpTo(course: seq<Event>, trace: seq<Event>, k: int, i: int)
    requires AllLinked(course, trace)
    requires 0 <= k < |course| && 0 <= i < |trace| && trace[i] == course[k]
    ensures Within(course, k + 1, trace, i + 1)
    decreases k
  {
    if k != 0 {
      assert IsLinked(course, trace, k, i);
      var j :| 0 <= j < i && trace[j] == course[k - 1];
      ChainUpTo(course, trace, k - 1, j);
      WithinMore(course, k, trace, j + 1, i);
    }
  }

  predicate HappensBefore(trace: seq<Event>, first: Event, second: Event) {
    forall i :: 0 <= i < |trace| && trace[i] == second ==> first in trace[..i]
  }

  lemma OrderedMeansBefore(trace: seq<Event>, hired: bool, first: Event, second: Event)
    requires Ordered(trace, hired) && first in Before(second, hired)
    ensures HappensBefore(trace, first, second)
  {
    forall i | 0 <= i < |trace| && trace[i] == second ensures first in trace[..i] {
      assert first in Seen(trace[..i]);
    }
  }

  /** Whole-run order: if all transport is hired, the trace of a completed order contains the whole course in order. */
  lemma {:induction false} CompletedOrdersRanTheCourse(l: Listing, finalPrice: int, steps: seq<Step>)
    requires IsSale(l, finalPrice) && AllHired(steps) && After(l, finalPrice, steps).state.status == Completed
    ensures IsSubsequence(COURSE, After(l, finalPrice, steps).trace)
  {
    RunsAreSound(l, finalPrice, steps, true);
    CourseIsChain();
    var trace := After(l, finalPrice, steps).trace;
    ReceivedMeansChain(COURSE, trace);
  }

  lemma {:induction false} ReceivedMeansChain(course: seq<Event>, trace: seq<Event>)
    requires Ordered(trace, true) && IsChain(course) && course != [] && course[|course| - 1] in trace
    ensures IsSubsequence(course, trace)
  {
    var k := |course| - 1;
    var i :| 0 <= i < |trace| && trace[i] == course[k];
    OrderedLinks(course, trace);
    ChainUpTo(course, trace, k, i);
    WithinMore(course, |course|, trace, i + 1, |trace|);
  }

  lemma {:induction false} TraceIsOrdered(l: Listing, finalPrice: int, steps: seq<Step>, hired: bool)
    requires IsSale(l, finalPrice) && (hired ==> AllHired(steps))
    ensures Ordered(After(l, finalPrice, steps).trace, hired)
  {
    RunsAreSound(l, finalPrice, steps, hired);
  }

  /** Whatever the transport: each of these is paid, approved or decided before the other happens. */
  lemma {:induction false} PaidBeforeWork(l: Listing, finalPrice: int, steps: seq<Step>)
    requires IsSale(l, finalPrice)
    ensures var trace := After(l, finalPrice, steps).trace;
      && HappensBefore(trace, FeePaid, Started)
      && HappensBefore(trace, TransportPaid, LoadingReported)
      && HappensBefore(trace, GoodsPaid, Loaded)
      && HappensBefore(trace, LoadingApproved, Loaded)
      && HappensBefore(trace, Bought, JobCreated)
  {
    TraceIsOrdered(l, finalPrice, steps, false);
    var trace := After(l, finalPrice, steps).trace;
    OrderedMeansBefore(trace, false, FeePaid, Started);
    OrderedMeansBefore(trace, false, TransportPaid, LoadingReported);
    OrderedMeansBefore(trace, false, GoodsPaid, Loaded);
    OrderedMeansBefore(trace, false, LoadingApproved, Loaded);
    OrderedMeansBefore(trace, false, Bought, JobCreated);
  }

  /**
   Goods payment agrees with the price for ever: hired truck or own, inspection required or not, every goods
   payment ever created is within a cent of the price now, and always will be.
   */
  lemma {:induction false} GoodsPaymentsMatchThePrice(l: Listing, finalPrice: int, steps: seq<Step>, i: int)
    requires IsSale(l, finalPrice) && 0 <= i < |After(l, finalPrice, steps).state.goods|
    ensures var s := After(l, finalPrice, steps).state;
      s.decision == PR.Buy && s.finalPrice - 1 <= s.goods[i].amount <= s.finalPrice + 1
  {
    RunsAreSound(l, finalPrice, steps, false);
  }

  /** Bought means one accepted review at the order's price, in the whole order as in the exchange alone. */
  lemma {:induction false} OrderPriceIsBilateral(l: Listing, finalPrice: int, steps: seq<Step>)
    requires IsSale(l, finalPrice)
    ensures var s := After(l, finalPrice, steps).state;
      && PR.OneAgreement(View(s))
      && PR.OnePending(s.reviews)
      && PR.NotUnderMinimum(l.deal, s.finalPrice)
  {
    RunsAreSound(l, finalPrice, steps, false);
  }

  /** From the day it is bought an order keeps its price, whatever happens next. */
  lemma {:induction false} BoughtOrdersKeepTheirPrice(l: Listing, finalPrice: int, steps: seq<Step>, more: seq<Step>)
    requires IsSale(l, finalPrice) && After(l, finalPrice, steps).state.decision == PR.Buy
    ensures Frozen(After(l, finalPrice, steps).state, After(l, finalPrice, steps + more).state)
  {
    if more == [] {
      assert steps + more == steps;
    } else {
      var prefix := steps + more[..|more| - 1];
      assert (steps + more)[..|steps + more| - 1] == prefix;
      BoughtOrdersKeepTheirPrice(l, finalPrice, steps, more[..|more| - 1]);
      RunsAreSound(l, finalPrice, prefix, false);
      StepKeepsPrice(l, After(l, finalPrice, prefix), more[|more| - 1]);
    }
  }

  lemma {:induction false} StepKeepsPrice(l: Listing, w: World, step: Step)
    requires Sound(l, w, false)
    ensures Frozen(w.state, Next(l, w, step).state)
  {
    match step
    case Read(_) =>
    case Run(i) =>
      if 0 <= i < |w.calls| && Commit(w.calls[i], w.state).Some? {
        assert CallOk(l, w, w.calls[i], false);
        CommitKeepsPrice(l, w.calls[i], w.state, Seen(w.trace), false);
      }
    case Act(d) => DeedKeepsPrice(l, w.state, d);
  }

  // --------------------------------------------------------------------------
  // A loading report that is used up
  // --------------------------------------------------------------------------

  /** The one loading report of the order has been reviewed, and the truck now on the job has no approval. */
  predicate ReportIsUsedUp(s: State) {
    s.loading == Reviewed && (s.job.Some? ==> !s.job.value.approved)
  }

  lemma ExchangeLeavesReportUsedUp(l: Listing, s: State, d: Deed)
    requires ReportIsUsedUp(s) && (d.Respond? || d.Decide?)
    ensures ReportIsUsedUp(Do(l, s, d).state)
  {
    match d
    case Respond(who, i, answer) =>
      var r := PR.Respond(l.deal, View(s), who, i, answer);
      assert r.Done? ==> ReportIsUsedUp(Adopt(s, r.order));
    case Decide(buy) =>
      var r := PR.Decide(l.deal, View(s), buy);
      assert r.Done? ==> ReportIsUsedUp(Adopt(s, r.order));
  }

  lemma DeedLeavesReportUsedUp(l: Listing, s: State, d: Deed)
    requires ReportIsUsedUp(s) && !d.Respond? && !d.Decide?
    ensures ReportIsUsedUp(Do(l, s, d).state)
  {
  }

  lemma CommitLeavesReportUsedUp(c: Call, s: State)
    requires ReportIsUsedUp(s) && Commit(c, s).Some?
    ensures ReportIsUsedUp(Commit(c, s).value.state)
  {
  }

  lemma StepLeavesReportUsedUp(l: Listing, w: World, step: Step)
    requires ReportIsUsedUp(w.state)
    ensures ReportIsUsedUp(Next(l, w, step).state)
  {
    match step
    case Read(_) =>
    case Run(i) =>
      if 0 <= i < |w.calls| && Commit(w.calls[i], w.state).Some? {
        CommitLeavesReportUsedUp(w.calls[i], w.state);
      }
    case Act(d) =>
      if d.Respond? || d.Decide? {
        ExchangeLeavesReportUsedUp(l, w.state, d);
      } else {
        DeedLeavesReportUsedUp(l, w.state, d);
      }
  }

  /**
   The loading report survives when transport is arranged anew. Once it has been approved for a truck that
   was later dropped, no other truck of the order can ever get the approval that its goods payment waits for.
   */
  lemma {:induction false} NewTruckIsNeverApproved(l: Listing, finalPrice: int, steps: seq<Step>, more: seq<Step>)
    requires ReportIsUsedUp(After(l, finalPrice, steps).state)
    ensures ReportIsUsedUp(After(l, finalPrice, steps + more).state)
  {
    if more == [] {
      assert steps + more == steps;
    } else {
      var prefix := steps + more[..|more| - 1];
      assert (steps + more)[..|steps + more| - 1] == prefix;
      NewTruckIsNeverApproved(l, finalPrice, steps, more[..|more| - 1]);
      StepLeavesReportUsedUp(l, After(l, finalPrice, prefix), more[|more| - 1]);
    }
  }

  // --------------------------------------------------------------------------
  // Carrying a run on
  // --------------------------------------------------------------------------

  lemma AfterOne(l: Listing, finalPrice: int, steps: seq<Step>, step: Step)
    ensures After(l, finalPrice, steps + [step]) == Next(l, After(l, finalPrice, steps), step)
  {
    assert (steps + [step])[..|steps + [step]| - 1] == steps;
  }

  /** A handler that reads and commits with nobody in between. */
  lemma Handle(l: Listing, finalPrice: int, steps: seq<Step>, action: Action) returns (more: seq<Step>)
    requires var s := After(l, finalPrice, steps).state;
      Admit(l, Call(action, s)) && Commit(Call(action, s), s).Some?
    ensures more == steps + [Read(action), Run(|After(l, finalPrice, steps).calls|)]
    ensures var s := After(l, finalPrice, steps).state;
      After(l, finalPrice, more).state == Commit(Call(action, s), s).value.state
  {
    var n := |After(l, finalPrice, steps).calls|;
    AfterOne(l, finalPrice, steps, Read(action));
    AfterOne(l, finalPrice, steps + [Read(action)], Run(n));
    more := steps + [Read(action)] + [Run(n)];
  }

  lemma Perform(l: Listing, finalPrice: int, steps: seq<Step>, deed: Deed) returns (more: seq<Step>)
    ensures more == steps + [Act(deed)]
    ensures After(l, finalPrice, more).state == Do(l, After(l, finalPrice, steps).state, deed).state
  {
    AfterOne(l, finalPrice, steps, Act(deed));
    more := steps + [Act(deed)];
  }
}
