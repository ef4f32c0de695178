/** Runs that show what is reachable: a completed order, a second truck without approval, a disputed delivery. */
module OrderRunWitness {
  import opened Money
  import opened OrderRun
  import opened OrderRunSafety
  import PR = PriceReviews

  const GOODS: Listing := Listing(PR.Deal(true, None, 1.0), true)
  const PRICE := 10000
  const INSPECTOR := 7

  function StateAfter(steps: seq<Step>): State {
    After(GOODS, PRICE, steps).state
  }

  lemma Handle(steps: seq<Step>, action: Action) returns (more: seq<Step>)
    requires AllHired(steps) && HiresTransport(Read(action))
    requires Admit(GOODS, Call(action, StateAfter(steps)))
    requires Commit(Call(action, StateAfter(steps)), StateAfter(steps)).Some?
    ensures AllHired(more) && steps <= more
    ensures StateAfter(more) == Commit(Call(action, StateAfter(steps)), StateAfter(steps)).value.state
  {
    more := OrderRunSafety.Handle(GOODS, PRICE, steps, action);
  }

  lemma Perform(steps: seq<Step>, deed: Deed) returns (more: seq<Step>)
    requires AllHired(steps)
    ensures AllHired(more) && steps <= more && StateAfter(more) == Do(GOODS, StateAfter(steps), deed).state
  {
    more := OrderRunSafety.Perform(GOODS, PRICE, steps, deed);
  }

  const AGREED: Inspection := Inspection(0, Agreed, Some(INSPECTOR), 50, false, false, false, [], [])
  const ON_SITE: Inspection := AGREED.(confirmed := true, onSite := true)
  const FEE_PAID: Inspection := ON_SITE.(feePayments := [Payment(50, Paid)])
  const FINISHED: Inspection := FEE_PAID.(status := Done, reported := true)

  function Inspected(i: Inspection): State {
    Opening(PRICE).(inspection := Some(i), inspections := 1)
  }

  lemma InspectionIsAgreed() returns (steps: seq<Step>)
    ensures AllHired(steps) && StateAfter(steps) == Inspected(AGREED)
  {
    steps := Perform([], RequestInspection);
    steps := Perform(steps, AcceptQuote(INSPECTOR, 50));
  }

  lemma InspectorIsOnSite() returns (steps: seq<Step>)
    ensures AllHired(steps) && StateAfter(steps) == Inspected(ON_SITE)
  {
    steps := InspectionIsAgreed();
    steps := Perform(steps, SellerConfirms);
    assert StateAfter(steps) == Inspected(AGREED.(confirmed := true));
    steps := Perform(steps, ConfirmArrival);
  }

  lemma FeeIsBilled() returns (steps: seq<Step>)
    ensures AllHired(steps) && StateAfter(steps) == Inspected(ON_SITE.(feePayments := [Payment(50, Pending)]))
  {
    steps := InspectorIsOnSite();
    assert ON_SITE.feePayments + [Payment(50, Pending)] == [Payment(50, Pending)];
    steps := Perform(steps, PayFee(50));
  }

  lemma InspectionIsPaid() returns (steps: seq<Step>)
    ensures AllHired(steps) && StateAfter(steps) == Inspected(FEE_PAID)
  {
    steps := FeeIsBilled();
    assert [Payment(50, Pending)][0 := Payment(50, Paid)] == [Payment(50, Paid)];
    steps := Perform(steps, PaymentMoves(Fee, 0, Paid, true));
  }

  lemma InspectionIsFinished() returns (steps: seq<Step>)
    ensures AllHired(steps) && StateAfter(steps) == Inspected(FINISHED)
  {
    steps := InspectionIsPaid();
    assert FEE_PAID.feePayments[0] == Payment(FEE_PAID.fee, Paid);
    steps := Handle(steps, Start(INSPECTOR));
    assert StateAfter(steps) == Inspected(FEE_PAID.(status := InProgress));
    assert AnyPaid(FEE_PAID.feePayments);
    steps := Handle(steps, Report(INSPECTOR));
  }

  const REVIEW: PR.Review := PR.Review(PR.Buyer, PRICE, false, PR.Pending, None)

  function Bargained(): State {
    Inspected(FINISHED).(decision := PR.Buy, reviews := [REVIEW.(status := PR.Accepted)])
  }

  lemma OrderIsBought() returns (steps: seq<Step>)
    ensures AllHired(steps) && StateAfter(steps) == Bargained()
  {
    steps := InspectionIsFinished();
    var s := Inspected(FINISHED);
    assert ReportIsIn(s) && !AnyOwed(s.goods) && !PR.HasPending([]);
    assert PR.Cents(100.0) == PRICE;
    steps := Handle(steps, Propose(PR.Buyer, Some(100.0), false));
    assert StateAfter(steps) == s.(reviews := [REVIEW]);
    steps := Perform(steps, Respond(PR.Seller, 0, PR.Accept));
  }

  function Carried(j: Job, loading: LoadingReport): State {
    Bargained().(job := Some(j), loading := loading, transport := [Payment(30, Paid)])
  }

  lemma TransportIsTaken() returns (steps: seq<Step>)
    ensures AllHired(steps) && StateAfter(steps) == Bargained().(job := Some(Job(true, Taken, false, false, false)))
  {
    steps := OrderIsBought();
    steps := Handle(steps, CreateJob(true));
    steps := Perform(steps, TakeTransport);
  }

  lemma TransportIsBilled() returns (steps: seq<Step>)
    ensures AllHired(steps)
    ensures StateAfter(steps) ==
      Bargained().(job := Some(Job(true, Taken, false, false, false)), transport := [Payment(30, Pending)])
  {
    steps := TransportIsTaken();
    assert [] + [Payment(30, Pending)] == [Payment(30, Pending)];
    steps := Perform(steps, PayTransport(30));
  }

  lemma TransportIsPaid() returns (steps: seq<Step>)
    ensures AllHired(steps) && StateAfter(steps) == Carried(Job(true, Taken, false, false, false), Missing)
  {
    steps := TransportIsBilled();
    assert [Payment(30, Pending)][0 := Payment(30, Paid)] == [Payment(30, Paid)];
    steps := Perform(steps, PaymentMoves(Transport, 0, Paid, true));
  }

  lemma LoadingIsApproved() returns (steps: seq<Step>)
    ensures AllHired(steps) && StateAfter(steps) == Carried(Job(true, Taken, true, true, true), Reviewed)
  {
    steps := TransportIsPaid();
    assert [Payment(30, Paid)][0].status == Paid;
    assert AnyPaid([Payment(30, Paid)]);
    steps := Handle(steps, ConfirmPickup);
    steps := Handle(steps, ConfirmTruck);
    assert StateAfter(steps) == Carried(Job(true, Taken, true, true, false), Missing);
    steps := Handle(steps, ReportLoading);
    steps := Handle(steps, ApproveLoading);
  }

  function Shipped(status: JobStatus, order: OrderStatus): State {
    Carried(Job(true, status, true, true, true), Reviewed).(status := order, goods := [Payment(PRICE, Paid)])
  }

  lemma GoodsArePaid() returns (steps: seq<Step>)
    ensures AllHired(steps) && StateAfter(steps) == Shipped(Taken, Confirmed)
  {
    steps := LoadingIsApproved();
    var s := Carried(Job(true, Taken, true, true, true), Reviewed);
    assert ReportIsIn(s) && !AnyOwed(s.goods) && SameMoney(100.0, PRICE) && PR.Cents(100.0) == PRICE;
    steps := Handle(steps, PayGoods(100.0));
    var billed := s.(goods := [Payment(PRICE, Pending)]);
    assert StateAfter(steps) == billed;
    steps := Perform(steps, PaymentMoves(Goods, 0, Paid, true));
    assert billed.goods[0 := Payment(PRICE, Paid)] == [Payment(PRICE, Paid)];
    assert Do(GOODS, billed, PaymentMoves(Goods, 0, Paid, true)).state == Shipped(Taken, Confirmed);
  }

  lemma GoodsAreLoaded() returns (steps: seq<Step>)
    ensures AllHired(steps) && StateAfter(steps) == Shipped(PickedUp, Confirmed)
  {
    steps := GoodsArePaid();
    PaidIsPaid();
    steps := Handle(steps, MoveJob(PickedUp, true));
  }

  lemma PaidIsPaid()
    ensures AnyPaid([Payment(PRICE, Paid)]) && AnyPaid([Payment(30, Paid)])
  {
    assert [Payment(PRICE, Paid)][0].status == Paid;
    assert [Payment(30, Paid)][0].status == Paid;
  }

  lemma GoodsAreDelivered() returns (steps: seq<Step>)
    ensures AllHired(steps) && StateAfter(steps) == Shipped(Delivered, HandedOver)
  {
    steps := GoodsAreLoaded();
    PaidIsPaid();
    steps := Handle(steps, MoveJob(InTransit, true));
    assert StateAfter(steps) == Shipped(InTransit, OnTheWay);
    steps := Handle(steps, MoveJob(Delivered, true));
  }

  /** Completed orders exist, so what is proved of them is not proved of nothing. */
  lemma CompletedIsReachable()
    ensures IsSale(GOODS, PRICE)
    ensures exists steps :: AllHired(steps) && After(GOODS, PRICE, steps).state.status == Completed
  {
    var steps := GoodsAreDelivered();
    PaidIsPaid();
    steps := Handle(steps, ConfirmReceipt);
    assert After(GOODS, PRICE, steps).state == StateAfter(steps);
  }

  /**
   The approved truck is given up, transport is arranged anew, and another truck is taken: the one loading report
   is used up and the new truck has no approval.
   */
  lemma AnotherTruckIsTaken() returns (steps: seq<Step>)
    ensures AllHired(steps)
    ensures StateAfter(steps) == Carried(Job(true, Taken, false, false, false), Reviewed)
    ensures ReportIsUsedUp(StateAfter(steps))
  {
    steps := LoadingIsApproved();
    assert !AnyInFlight([Payment(30, Paid)]);
    steps := Handle(steps, MoveJob(Abandoned, true));
    assert StateAfter(steps) == Carried(Job(true, Abandoned, true, true, true), Reviewed);
    steps := Handle(steps, CreateJob(true));
    steps := Perform(steps, TakeTransport);
  }

  /** A delivered order is disputed. */
  lemma DeliveryIsDisputed() returns (steps: seq<Step>)
    ensures AllHired(steps)
    ensures StateAfter(steps) == Shipped(Delivered, HandedOver).(status := Disputed, resume := HandedOver)
  {
    steps := GoodsAreDelivered();
    steps := Handle(steps, Dispute);
  }
}
