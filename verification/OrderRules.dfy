/**
 When a handler of the order lets its caller through, when its transaction goes through, and what that changes; and
 the same for the transactions of the other services. All as one table, which the order's steps follow exactly.
 */
module OrderRules {
  import opened Money
  import opened OrderRun
  import PR = PriceReviews
  import AgreedPrices
  import OrderRunSafety
  import OrderRunLimits

  // --------------------------------------------------------------------------
  // The parties' handlers: the first read
  // --------------------------------------------------------------------------

  predicate InspectionFits(s: State, inspector: int, status: InspectionStatus) {
    && s.inspection.Some? && s.inspection.value.inspector == Some(inspector) && s.inspection.value.status == status
    && s.status !in {Disputed, Cancelled}
  }

  predicate OnSite(s: State)
    requires s.inspection.Some?
  {
    s.inspection.value.confirmed && s.inspection.value.onSite
  }

  /** All that is owed on the request is paid; without any record of what is owed, a payment is. */
  predicate DuesArePaid(i: Inspection, exact: bool) {
    if |i.dues| == 0
    then exists k :: 0 <= k < |i.feePayments| && i.feePayments[k].status == Paid && (exact ==> i.feePayments[k].amount == i.fee)
    else forall k :: 0 <= k < |i.dues| ==> i.dues[k]
  }

  predicate HasPaid(ps: seq<Payment>) {
    exists k :: 0 <= k < |ps| && ps[k].status == Paid
  }

  predicate HasOpen(ps: seq<Payment>, statuses: set<PayStatus>) {
    exists k :: 0 <= k < |ps| && ps[k].status in statuses
  }

  predicate JobIs(s: State, status: JobStatus) {
    s.job.Some? && s.job.value.status == status
  }

  /** The seller is ready and the truck is there. */
  predicate ReadyToLoad(s: State) {
    JobIs(s, Taken) && s.job.value.ready && s.job.value.arrived
  }

  /** Inspected goods are paid for when bought and released: by approved loading, or by a ready seller and own truck. */
  predicate GoodsAreReleased(l: Listing, s: State) {
    && (l.deal.isGoods && (l.inspectionRequired || (s.inspection.Some? && s.inspection.value.status != Dropped)) ==>
         s.decision == PR.Buy && s.inspection.Some? && s.inspection.value.status == Done && s.inspection.value.reported)
    && s.job.Some? && (if s.job.value.hired then s.job.value.approved else s.job.value.ready)
  }

  /** Which status a transporter may report next, and what it takes. */
  predicate MayReport(j: Job, next: JobStatus, s: State) {
    match next
    case Taken => !j.hired && j.status in {Wanted, Quoted}
    case Quoted => j.status == Wanted
    case PickedUp => j.status == Taken && j.ready && j.arrived && j.approved && s.loading != Missing && HasPaid(s.goods)
    case InTransit => j.status == PickedUp && (j.hired ==> HasPaid(s.transport))
    case Delivered => j.status in {InTransit, Delivered}
    case Abandoned => j.status in {Wanted, Quoted, Taken} && (j.hired ==> !HasOpen(s.transport, {Pending, Processing}))
    case Wanted => false
  }

  predicate LessThanACentOff(amount: real, cents: int) {
    amount * 100.0 < cents as real + 1.0 && cents as real - 1.0 < amount * 100.0
  }

  predicate IsAdmissible(l: Listing, c: Call) {
    var s := c.at;
    match c.action
    case Start(user) => InspectionFits(s, user, Agreed) && OnSite(s) && DuesArePaid(s.inspection.value, true)
    case Report(user) =>
      InspectionFits(s, user, InProgress) && OnSite(s) && !s.inspection.value.reported && DuesArePaid(s.inspection.value, false)
    case Propose(_, _, _) => PR.Admit(l.deal, AsProposal(c)) == None
    case CreateJob(_) =>
      && s.status in {PendingPayment, Confirmed, Arranged} && (s.job == None || JobIs(s, Abandoned))
      && (l.deal.isGoods ==> s.decision == PR.Buy)
    case ConfirmPickup => JobIs(s, Taken) && !s.job.value.ready
    case ConfirmTruck => JobIs(s, Taken) && s.job.value.hired && s.job.value.ready && !s.job.value.arrived
    case ReportLoading => ReadyToLoad(s) && HasPaid(s.transport)
    case ApproveLoading => ReadyToLoad(s) && HasPaid(s.transport) && s.loading != Missing && s.decision == PR.Buy
    case PayGoods(amount) =>
      && s.status !in {Disputed, Completed} && LessThanACentOff(amount, s.finalPrice) && GoodsAreReleased(l, s)
      && !HasOpen(s.goods, {Pending, Processing, Paid})
    case MoveJob(next, allowed) => allowed && s.status != Disputed && s.job.Some? && MayReport(s.job.value, next, s)
    case Dispute => s.status !in {Completed, Disputed, Cancelled}
    case ConfirmReceipt =>
      s.status != Completed && JobIs(s, Delivered) && HasPaid(s.goods) && (s.job.value.hired ==> HasPaid(s.transport))
  }

  lemma PaidMeans(ps: seq<Payment>)
    ensures AnyPaid(ps) <==> HasPaid(ps)
    ensures AnyOwed(ps) <==> HasOpen(ps, {Pending, Processing, Paid})
    ensures AnyInFlight(ps) <==> HasOpen(ps, {Pending, Processing})
  {
    if HasOpen(ps, {Pending, Processing, Paid}) {
      var k :| 0 <= k < |ps| && ps[k].status in {Pending, Processing, Paid};
      assert Owed(ps[k]);
    }
  }

  lemma DuesMean(i: Inspection)
    ensures FeeIsPaid(i) <==> DuesArePaid(i, true)
    ensures ReportFeeIsPaid(i) <==> DuesArePaid(i, false)
  {
    PaidMeans(i.feePayments);
    if |i.dues| == 0 && DuesArePaid(i, true) {
      var k :| 0 <= k < |i.feePayments| && i.feePayments[k].status == Paid && i.feePayments[k].amount == i.fee;
      assert i.feePayments[k] == Payment(i.fee, Paid);
    }
  }

  lemma {:induction false} AdmittedIff(l: Listing, c: Call)
    ensures Admit(l, c) <==> IsAdmissible(l, c)
  {
    PaidMeans(c.at.goods);
    PaidMeans(c.at.transport);
    if c.at.inspection.Some? {
      DuesMean(c.at.inspection.value);
    }
  }

  // --------------------------------------------------------------------------
  // The parties' handlers: the transaction
  // --------------------------------------------------------------------------

  /** It is still the inspection that was read. */
  predicate IsTheOneRead(c: Call, s: State) {
    s.inspection.Some? && c.at.inspection.Some? && c.at.inspection.value.id == s.inspection.value.id
  }

  predicate IsStillRight(c: Call, s: State) {
    var open := s.status !in {Disputed, Cancelled};
    match c.action
    case Start(user) => IsTheOneRead(c, s) && InspectionFits(s, user, Agreed) && OnSite(s)
    case Report(user) => IsTheOneRead(c, s) && InspectionFits(s, user, InProgress) && !s.inspection.value.reported
    case Propose(_, price, cancelling) => (cancelling || price.Some?) && PR.Commit(AsProposal(c), View(s)).Done?
    case CreateJob(_) => open && (s.job == None || JobIs(s, Abandoned))
    case ConfirmPickup => JobIs(s, Taken) && !s.job.value.ready
    case ConfirmTruck => JobIs(s, Taken) && !s.job.value.arrived
    case ReportLoading => open && JobIs(s, Taken) && s.loading == Missing
    case ApproveLoading => JobIs(s, Taken) && !s.job.value.approved && s.loading == AwaitsReview
    case PayGoods(amount) => 0.0 < amount
    case MoveJob(_, _) => open && s.job.Some?
    case Dispute => s.status == c.at.status && s.status !in {Completed, Disputed, Cancelled}
    case ConfirmReceipt => JobIs(s, Delivered) && s.status in {HandedOver, Disputed}
  }

  lemma {:induction false} CommitsIff(c: Call, s: State)
    ensures Commit(c, s).Some? <==> IsStillRight(c, s)
  {
  }

  /** Where the report of a journey takes the order. */
  function Following(status: OrderStatus, next: JobStatus): OrderStatus {
    match next
    case InTransit => if status == Confirmed || status == Arranged then OnTheWay else status
    case Delivered => if status == Confirmed || status == Arranged || status == OnTheWay then HandedOver else status
    case _ => status
  }

  predicate IsJob(s: State, t: State, j: Job) {
    t == s.(job := Some(j))
  }

  ghost predicate HandlerLeaves(c: Call, s: State, t: State, event: Option<Event>) {
    match c.action
    case Start(_) =>
      s.inspection.Some? && t == s.(inspection := Some(s.inspection.value.(status := InProgress))) && event == Some(Started)
    case Report(_) =>
      && s.inspection.Some? && event == Some(Reported)
      && t == s.(inspection := Some(s.inspection.value.(status := Done, reported := true)))
    case Propose(proposer, price, cancelling) =>
      && |t.reviews| == |s.reviews| + 1 && event == Some(ReviewProposed)
      && var r := t.reviews[|s.reviews|];
         && t == s.(reviews := s.reviews + [r]) && r == PR.Review(proposer, r.price, cancelling, PR.Pending, None)
         && if price.Some? then AgreedPrices.IsNearestCent(r.price, price.value) else r.price == s.finalPrice
    case CreateJob(hired) =>
      && t == s.(job := Some(Job(hired, if hired then Wanted else Taken, false, false, false)),
                 status := if s.status == Confirmed then Arranged else s.status)
      && event == Some(JobCreated)
    case ConfirmPickup => s.job.Some? && IsJob(s, t, s.job.value.(ready := true)) && event == Some(PickupReady)
    case ConfirmTruck => s.job.Some? && IsJob(s, t, s.job.value.(arrived := true)) && event == Some(TruckArrived)
    case ReportLoading => t == s.(loading := AwaitsReview) && event == Some(LoadingReported)
    case ApproveLoading =>
      && s.job.Some? && event == Some(LoadingApproved)
      && t == s.(job := Some(s.job.value.(approved := true)), loading := Reviewed)
    case PayGoods(amount) =>
      && |t.goods| == |s.goods| + 1 && event == Some(GoodsCreated)
      && var p := t.goods[|s.goods|];
         t == s.(goods := s.goods + [p]) && p.status == Pending && AgreedPrices.IsNearestCent(p.amount, amount)
    case MoveJob(next, _) =>
      && s.job.Some? && t == s.(job := Some(s.job.value.(status := next)), status := Following(s.status, next))
      && event == if next == PickedUp then Some(Loaded) else if next == InTransit then Some(OnRoad)
                  else if next == Delivered then Some(AtDestination) else None
    case Dispute => t == s.(status := Disputed, resume := s.status) && event == None
    case ConfirmReceipt => t == s.(status := Completed) && event == Some(Received)
  }

  lemma {:induction false} CommitChanges(c: Call, s: State)
    requires Commit(c, s).Some?
    ensures HandlerLeaves(c, s, Commit(c, s).value.state, Commit(c, s).value.event)
  {
  }

  // --------------------------------------------------------------------------
  // The transactions of other services
  // --------------------------------------------------------------------------

  predicate IsExchange(d: Deed) {
    d.Respond? || d.Decide?
  }

  predicate IsPayment(d: Deed) {
    d.PaymentMoves? || d.TakeEffect? || d.PayFee? || d.PayTransport?
  }

  predicate HasInspection(s: State, status: InspectionStatus) {
    s.inspection.Some? && s.inspection.value.status == status
  }

  /** What a deed on inspection, transport or the order itself needs. */
  predicate MayDo(s: State, d: Deed) {
    var open := s.status !in {Disputed, Cancelled};
    match d
    case RequestInspection => s.inspection == None || HasInspection(s, Dropped)
    case AcceptQuote(_, _) => open && HasInspection(s, Requested) && s.inspection.value.inspector == None
    case SellerConfirms =>
      && open && s.status != Completed && HasInspection(s, Agreed) && s.inspection.value.inspector.Some?
      && !s.inspection.value.confirmed && !s.inspection.value.onSite && 0 < s.inspection.value.fee
    case ConfirmArrival =>
      HasInspection(s, Agreed) && s.inspection.value.inspector.Some? && s.inspection.value.confirmed && !s.inspection.value.onSite
    case ReopenInspection => HasInspection(s, Agreed)
    case StallInspection => HasInspection(s, Agreed) || HasInspection(s, InProgress)
    case DropInspection => s.inspection.Some? && !HasInspection(s, InProgress) && !HasInspection(s, Done)
    case SyncDues(dues) =>
      s.inspection.Some? && (true in dues ==> true in s.inspection.value.dues || HasPaid(s.inspection.value.feePayments))
    case TakeTransport => open && (JobIs(s, Wanted) || JobIs(s, Quoted))
    case ReleaseTransport => open && JobIs(s, Taken) && s.job.value.hired && !HasOpen(s.transport, {Pending, Processing, Paid})
    case DropTransport => JobIs(s, Taken)
    case Dismiss => s.status == Disputed
    case CancelInspectionService => s.status == Disputed
    case CancelTransportService => s.status == Disputed
    case CancelOrder =>
      || s.status == Disputed
      || (s.status in {PendingPayment, Confirmed, Arranged} && !JobIs(s, PickedUp) && !JobIs(s, InTransit) && !JobIs(s, Delivered))
    case _ => true
  }

  ghost predicate IsInspection(s: State, t: State, i: Inspection) {
    t == s.(inspection := Some(i))
  }

  /** The inspection goes on with `status`, and nobody is on it any more. */
  ghost predicate IsUnseated(s: State, t: State, status: InspectionStatus) {
    s.inspection.Some? &&
    IsInspection(s, t, s.inspection.value.(status := status, inspector := None, confirmed := false, onSite := false))
  }

  /** Where cancelling leaves the services: finished work and delivered goods stay as they are. */
  ghost predicate IsCancelled(s: State, t: State) {
    && t == s.(status := Cancelled, job := t.job, inspection := t.inspection)
    && (if s.job.None? || s.job.value.status in {Delivered, Abandoned} then t.job == s.job
        else t.job == Some(s.job.value.(status := Abandoned)))
    && (if s.inspection.None? || s.inspection.value.status == Done then t.inspection == s.inspection
        else t.inspection == Some(s.inspection.value.(status := Dropped)))
  }

  /** How it changes the order; for the ways a dispute is resolved see ResolutionRestoresTheOrder. */
  ghost predicate DeedLeaves(s: State, d: Deed, t: State) {
    var i := s.inspection;
    match d
    case RequestInspection =>
      t == s.(inspection := Some(Inspection(s.inspections, Requested, None, 0, false, false, false, [], [])),
              inspections := s.inspections + 1)
    case AcceptQuote(inspector, fee) =>
      i.Some? && IsInspection(s, t, i.value.(status := Agreed, inspector := Some(inspector), fee := fee, confirmed := false))
    case SellerConfirms => i.Some? && IsInspection(s, t, i.value.(confirmed := true))
    case ConfirmArrival => i.Some? && IsInspection(s, t, i.value.(onSite := true))
    case ReopenInspection => IsUnseated(s, t, Requested)
    case StallInspection => i.Some? && IsInspection(s, t, i.value.(status := Stalled))
    case DropInspection => i.Some? && IsInspection(s, t, i.value.(status := Dropped))
    case SyncDues(dues) => i.Some? && IsInspection(s, t, i.value.(dues := dues))
    case TakeTransport => s.job.Some? && IsJob(s, t, s.job.value.(status := Taken))
    case ReleaseTransport => s.job.Some? && IsJob(s, t, Job(true, Quoted, false, false, false))
    case DropTransport => s.job.Some? && IsJob(s, t, s.job.value.(status := Abandoned))
    case CancelOrder => IsCancelled(s, t)
    case _ => true
  }

  predicate DeedEvent(d: Deed, event: Option<Event>) {
    event == match d
             case AcceptQuote(_, _) => Some(QuoteAccepted)
             case SellerConfirms => Some(SellerConfirmed)
             case ConfirmArrival => Some(Arrived)
             case _ => None
  }

  /** A deed of another service does what the table says, or nothing. */
  lemma {:induction false} DeedFollowsRule(l: Listing, s: State, d: Deed)
    requires !IsExchange(d) && !IsPayment(d)
    ensures var o := Do(l, s, d);
      if MayDo(s, d) then DeedLeaves(s, d, o.state) && DeedEvent(d, o.event) else o == Quietly(s)
  {
    PaidMeans(s.transport);
    if s.inspection.Some? {
      PaidMeans(s.inspection.value.feePayments);
    }
  }

  // --------------------------------------------------------------------------
  // Payments
  // --------------------------------------------------------------------------

  ghost predicate Bills(a: seq<Payment>, b: seq<Payment>, amount: int) {
    b == a + [Payment(amount, Pending)]
  }

  /** A fee is billed once the inspector is there, and transport once a hired truck is taken. */
  lemma {:induction false} BillingFollowsRule(l: Listing, s: State, amount: int)
    ensures var t := Do(l, s, PayFee(amount)).state;
      if s.inspection.Some? && OnSite(s)
      then t.inspection.Some? && Bills(s.inspection.value.feePayments, t.inspection.value.feePayments, amount) &&
        IsInspection(s, t, s.inspection.value.(feePayments := t.inspection.value.feePayments))
      else t == s
    ensures var t := Do(l, s, PayTransport(amount)).state;
      if s.status != Disputed && JobIs(s, Taken) && s.job.value.hired
      then Bills(s.transport, t.transport, amount) && t == s.(transport := t.transport) else t == s
  {
  }

  /** The payments that a purse holds. */
  function In(s: State, purse: Purse): seq<Payment> {
    match purse
    case Goods => s.goods
    case Transport => s.transport
    case Fee => if s.inspection.Some? then s.inspection.value.feePayments else []
  }

  /** A refund is final; a paid payment can only be refunded; one in question is settled some way; none starts anew. */
  predicate IsSettlement(a: PayStatus, b: PayStatus) {
    && b != Pending
    && (a == Refunded ==> b == Refunded)
    && (a == Paid ==> b !in {Processing, Failed, Reconciling})
    && (a == Reconciling ==> b !in {Processing, RefundPending})
  }

  /** Paid goods confirm the order; a paid fee for a hired truck commits it. Nothing else follows a payment. */
  ghost predicate TakesEffect(s: State, purse: Purse, t: State) {
    var commits := purse == Transport && s.status !in {Disputed, Cancelled} && s.job.Some? && s.job.value.hired &&
      s.job.value.status in {Wanted, Quoted, Taken};
    t == s.(status := if purse == Goods && s.status == PendingPayment then Confirmed
                      else if commits && s.status == Confirmed then Arranged else s.status,
            job := if commits then Some(s.job.value.(status := Taken)) else s.job)
  }

  ghost predicate PaymentIs(s: State, t: State, purse: Purse, i: int, to: PayStatus)
    requires 0 <= i < |In(s, purse)|
  {
    && In(t, purse) == In(s, purse)[i := In(s, purse)[i].(status := to)]
    && (forall other :: other != purse ==> In(t, other) == In(s, other))
    && t == s.(goods := t.goods, transport := t.transport, inspection := t.inspection)
    && (s.inspection.Some? ==>
         t.inspection.Some? && t.inspection.value == s.inspection.value.(feePayments := t.inspection.value.feePayments))
    && (s.inspection.None? ==> t.inspection.None?)
  }

  /** A payment moves only as it may; when it becomes paid the event is recorded, and the effect comes then or later. */
  lemma {:induction false} PaymentMoveFollowsRule(l: Listing, s: State, purse: Purse, i: int, to: PayStatus, effective: bool)
    ensures var o := Do(l, s, PaymentMoves(purse, i, to, effective));
      if 0 <= i < |In(s, purse)| && IsSettlement(In(s, purse)[i].status, to) then
        exists t :: PaymentIs(s, t, purse, i, to) &&
          (if to == Paid && effective then TakesEffect(t, purse, o.state) else o.state == t) &&
          (o.event == if to != Paid then None else if purse == Goods then Some(GoodsPaid)
                      else if purse == Transport then Some(TransportPaid) else Some(FeePaid))
      else o == Quietly(s)
  {
    assert In(s, purse) == Purses(s, purse);
    if 0 <= i < |In(s, purse)| && IsSettlement(In(s, purse)[i].status, to) {
      var t := SetPurse(s, purse, In(s, purse)[i := In(s, purse)[i].(status := to)]);
      assert MaySettle(In(s, purse)[i].status, to);
      assert PaymentIs(s, t, purse, i, to);
    }
  }

  lemma {:induction false} DelayedEffectFollowsRule(l: Listing, s: State, purse: Purse)
    ensures var t := Do(l, s, TakeEffect(purse)).state;
      if HasPaid(In(s, purse)) then TakesEffect(s, purse, t) else t == s
  {
    PaidMeans(In(s, purse));
    assert In(s, purse) == Purses(s, purse);
  }

  // --------------------------------------------------------------------------
  // The exchange, inside the order
  // --------------------------------------------------------------------------

  /** The exchange writes price, decision and reviews, and cancels the order when it ends that way; nothing else. */
  lemma {:induction false} ExchangeFollowsRule(l: Listing, s: State, d: Deed)
    requires IsExchange(d)
    ensures var o := Do(l, s, d);
      var r := if d.Respond? then PR.Respond(l.deal, View(s), d.who, d.review, d.answer) else PR.Decide(l.deal, View(s), d.buy);
      if r.Refused? || (r.order.state == PR.Cancelled && s.status !in {PendingPayment, Confirmed, Arranged}) then o == Quietly(s)
      else
        var t := s.(decision := r.order.decision, finalPrice := r.order.finalPrice, reviews := r.order.reviews);
        && (if r.order.state == PR.Cancelled then IsCancelled(t, o.state) else o.state == t)
        && o.event == if r.order.decision == PR.Buy then Some(Bought)
                      else if d.Respond? && d.answer.Counter? then Some(ReviewProposed) else None
  {
    var v := View(s);
    assert v.state == PR.Cancelled ==> s.status == Cancelled;
  }

  /** One allowed move, or transport that starts from a confirmed order and takes two at once. */
  predicate Reaches(a: OrderStatus, b: OrderStatus) {
    MayMove(a, b) || (a == Confirmed && MayMove(Confirmed, Arranged) && MayMove(Arranged, b))
  }

  lemma CommitMovesStatus(c: Call, s: State)
    requires Commit(c, s).Some?
    ensures Commit(c, s).value.state.status == s.status || Reaches(s.status, Commit(c, s).value.state.status)
  {
    CommitsIff(c, s);
    CommitChanges(c, s);
  }

  lemma DeedMovesStatus(l: Listing, s: State, d: Deed)
    requires s.resume != Disputed
    ensures Do(l, s, d).state.status == s.status || Reaches(s.status, Do(l, s, d).state.status)
  {
    if IsExchange(d) {
      ExchangeFollowsRule(l, s, d);
    } else if !IsPayment(d) {
      DeedFollowsRule(l, s, d);
    }
  }

  /** Whichever service takes the step, an order's status moves only as the state machine allows. */
  lemma {:induction false} StatusFollowsTheMachine(l: Listing, finalPrice: int, steps: seq<Step>, step: Step)
    ensures var a, b := After(l, finalPrice, steps).state.status, After(l, finalPrice, steps + [step]).state.status;
      a == b || Reaches(a, b)
  {
    var w := After(l, finalPrice, steps);
    OrderRunSafety.AfterOne(l, finalPrice, steps, step);
    OrderRunLimits.RunsAreTidy(l, finalPrice, steps);
    match step
    case Read(_) =>
    case Run(i) =>
      if 0 <= i < |w.calls| && Commit(w.calls[i], w.state).Some? {
        CommitMovesStatus(w.calls[i], w.state);
      }
    case Act(d) => DeedMovesStatus(l, w.state, d);
  }

  /** The exchange sees the order as it is. */
  lemma ExchangeSees(s: State)
    ensures var v := View(s);
      && (v.state == PR.Live <==> s.status !in {Disputed, Cancelled, Completed})
      && (v.state == PR.Disputed <==> s.status == Disputed) && (v.state == PR.Cancelled <==> s.status == Cancelled)
      && v.decision == s.decision && v.finalPrice == s.finalPrice && v.reviews == s.reviews
      && (v.reported <==> s.inspection.Some? && s.inspection.value.status == Done && s.inspection.value.reported)
      && (v.goodsPaymentOpen <==> HasOpen(s.goods, {Pending, Processing, Paid}))
      && (v.goodsMoving <==> JobIs(s, PickedUp) || JobIs(s, InTransit) || JobIs(s, Delivered))
  {
    PaidMeans(s.goods);
  }
}
