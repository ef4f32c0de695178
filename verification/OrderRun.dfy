/**
 One order of physical goods from its agreement to its receipt: inspection, price exchange, transport,
 payments and disputes, with the guards as the different route files make them.

 A handler that reads before its transaction is a Call that keeps the state it read. Transactions that
 read what they check are single steps. Every step that matters records an event in the trace.
 */
module OrderRun {
  import opened Money
  import PR = PriceReviews

  // --------------------------------------------------------------------------
  // The rows of one order
  // --------------------------------------------------------------------------

  datatype OrderStatus =
    | PendingPayment | Confirmed | Arranged | OnTheWay | HandedOver | Completed | Disputed | Cancelled

  datatype PayStatus = Pending | Processing | Paid | Failed | Reconciling | RefundPending | Refunded

  datatype Payment = Payment(amount: int, status: PayStatus)

  datatype InspectionStatus = Requested | Agreed | InProgress | Stalled | Done | Dropped

  /** `dues` are the fee obligations of this request, each paid or not. */
  datatype Inspection = Inspection(
    id: int, status: InspectionStatus, inspector: Option<int>, fee: int, confirmed: bool, onSite: bool,
    reported: bool, dues: seq<bool>, feePayments: seq<Payment>)

  datatype JobStatus = Wanted | Quoted | Taken | PickedUp | InTransit | Delivered | Abandoned

  datatype Job = Job(hired: bool, status: JobStatus, ready: bool, arrived: bool, approved: bool)

  /** The loading report belongs to the job's row, and the row is used again when transport is arranged anew. */
  datatype LoadingReport = Missing | AwaitsReview | Reviewed

  datatype State = State(
    status: OrderStatus, resume: OrderStatus, decision: PR.Decision, finalPrice: int, reviews: seq<PR.Review>,
    inspection: Option<Inspection>, inspections: int, job: Option<Job>, loading: LoadingReport,
    goods: seq<Payment>, transport: seq<Payment>)

  datatype Listing = Listing(deal: PR.Deal, inspectionRequired: bool)

  predicate Owed(p: Payment) {
    p.status == Pending || p.status == Processing || p.status == Paid
  }

  predicate AnyOwed(ps: seq<Payment>) {
    exists i :: 0 <= i < |ps| && Owed(ps[i])
  }

  predicate AnyInFlight(ps: seq<Payment>) {
    exists i :: 0 <= i < |ps| && ps[i].status in {Pending, Processing}
  }

  predicate AnyPaid(ps: seq<Payment>) {
    exists i :: 0 <= i < |ps| && ps[i].status == Paid
  }

  /** orderStateMachine: the moves an order may make. */
  predicate MayMove(a: OrderStatus, b: OrderStatus) {
    match a
    case PendingPayment => b in {Confirmed, Cancelled, Disputed}
    case Confirmed => b in {Arranged, Cancelled, Disputed}
    case Arranged => b in {OnTheWay, HandedOver, Cancelled, Disputed}
    case OnTheWay => b in {HandedOver, Disputed}
    case HandedOver => b in {Completed, Disputed}
    case Disputed => b != Disputed
    case Completed => false
    case Cancelled => false
  }

  /** What a settlement may make of a payment: a refund is final, and a paid payment is neither failed nor queried. */
  predicate MaySettle(a: PayStatus, b: PayStatus) {
    match a
    case Refunded => b == Refunded
    case Paid => b in {Paid, RefundPending, Refunded}
    case Reconciling => b in {Paid, Failed, Refunded, Reconciling}
    case _ => b != Pending
  }

  /** lockOrderAndAssertNotClosed. */
  predicate IsOpen(s: State) {
    s.status != Disputed && s.status != Cancelled
  }

  /** The current inspection request: the newest that is not cancelled. */
  function Current(s: State): Option<Inspection> {
    if s.inspection.Some? && s.inspection.value.status != Dropped then s.inspection else None
  }

  predicate ReportIsIn(s: State) {
    Current(s).Some? && Current(s).value.status == Done && Current(s).value.reported
  }

  /** The order as the price exchange sees it. */
  function View(s: State): PR.Order {
    PR.Order(
      if s.status == Disputed then PR.Disputed
      else if s.status == Cancelled then PR.Cancelled
      else if s.status == Completed then PR.Completed else PR.Live,
      s.decision, s.finalPrice, s.reviews, ReportIsIn(s), AnyOwed(s.goods),
      s.job.Some? && s.job.value.status in {PickedUp, InTransit, Delivered})
  }

  /** cancelOrderInTransaction on the rows modelled here; finished inspections and deliveries stay. */
  function CancelAll(s: State): State {
    s.(status := Cancelled,
       job := if s.job.Some? && s.job.value.status !in {Delivered, Abandoned}
              then Some(s.job.value.(status := Abandoned)) else s.job,
       inspection := if s.inspection.Some? && s.inspection.value.status != Done
                     then Some(s.inspection.value.(status := Dropped)) else s.inspection)
  }

  /** The exchange would cancel an order that has left: the move is refused and the whole answer rolled back. */
  predicate CannotCancel(s: State, o: PR.Order) {
    o.state == PR.Cancelled && !MayMove(s.status, Cancelled)
  }

  /** Carry the outcome of the price exchange back to the order. */
  function Adopt(s: State, o: PR.Order): State {
    var t := s.(decision := o.decision, finalPrice := o.finalPrice, reviews := o.reviews);
    if o.state == PR.Cancelled && s.status != Cancelled then CancelAll(t) else t
  }

  // --------------------------------------------------------------------------
  // Events
  // --------------------------------------------------------------------------

  datatype Event =
    | QuoteAccepted | SellerConfirmed | Arrived | FeePaid | Started | Reported
    | ReviewProposed | Bought
    | JobCreated | TransportPaid | PickupReady | TruckArrived | LoadingReported | LoadingApproved
    | GoodsCreated | GoodsPaid
    | Loaded | OnRoad | AtDestination | Received

  /** What must have happened before an event. `hired`: all transport of this order is hired. */
  function Before(e: Event, hired: bool): set<Event> {
    match e
    case QuoteAccepted => {}
    case SellerConfirmed => {QuoteAccepted}
    case Arrived => {SellerConfirmed}
    case FeePaid => {Arrived}
    case Started => {Arrived, FeePaid}
    case Reported => {Started}
    case ReviewProposed => {Reported}
    case Bought => {ReviewProposed}
    case JobCreated => {Bought}
    case TransportPaid => {JobCreated}
    case PickupReady => {JobCreated}
    case TruckArrived => {PickupReady}
    case LoadingReported => {TruckArrived, TransportPaid}
    case LoadingApproved => {LoadingReported}
    case GoodsCreated => if hired then {LoadingApproved} else {PickupReady}
    case GoodsPaid => {GoodsCreated}
    case Loaded => {GoodsPaid, LoadingApproved}
    case OnRoad => {Loaded}
    case AtDestination => {OnRoad}
    case Received => {AtDestination}
  }

  datatype Outcome = Outcome(state: State, event: Option<Event>)

  function Quietly(s: State): Outcome {
    Outcome(s, None)
  }

  // --------------------------------------------------------------------------
  // Handlers that read first
  // --------------------------------------------------------------------------

  /** `allowed` stands for checks outside this model: evidence uploaded, the pickup window still open. */
  datatype Action =
    | Start(user: int)
    | Report(user: int)
    | Propose(proposer: PR.Party, price: Option<real>, cancelling: bool)
    | CreateJob(hiredTruck: bool)
    | ConfirmPickup
    | ConfirmTruck
    | ReportLoading
    | ApproveLoading
    | PayGoods(amount: real)
    | MoveJob(next: JobStatus, allowed: bool)
    | Dispute
    | ConfirmReceipt

  datatype Call = Call(action: Action, at: State)

  function AsProposal(c: Call): PR.Proposal
    requires c.action.Propose?
  {
    PR.Proposal(c.action.proposer, c.action.price, c.action.cancelling, View(c.at))
  }

  predicate FeeIsPaid(i: Inspection) {
    if i.dues != [] then false !in i.dues
    else exists k :: 0 <= k < |i.feePayments| && i.feePayments[k] == Payment(i.fee, Paid)
  }

  predicate ReportFeeIsPaid(i: Inspection) {
    if i.dues != [] then false !in i.dues else AnyPaid(i.feePayments)
  }

  predicate GoodsUnlocked(s: State) {
    s.job.Some? && if s.job.value.hired then s.job.value.approved else s.job.value.ready
  }

  predicate SameMoney(amount: real, cents: int) {
    -1.0 < amount * 100.0 - cents as real < 1.0
  }

  predicate MayMoveJob(a: JobStatus, b: JobStatus) {
    match a
    case Wanted => b in {Taken, Quoted, Abandoned}
    case Quoted => b in {Taken, Abandoned}
    case Taken => b in {PickedUp, Abandoned}
    case PickedUp => b == InTransit
    case InTransit => b == Delivered
    case Delivered => b == Delivered
    case Abandoned => false
  }

  predicate Admit(l: Listing, c: Call) {
    var s := c.at;
    match c.action
    case Start(user) =>
      && s.inspection.Some?
      && var i := s.inspection.value;
         i.inspector == Some(user) && i.status == Agreed && i.confirmed && i.onSite && FeeIsPaid(i) && IsOpen(s)
    case Report(user) =>
      && s.inspection.Some?
      && var i := s.inspection.value;
         i.inspector == Some(user) && i.status == InProgress && i.confirmed && i.onSite && !i.reported &&
         ReportFeeIsPaid(i) && IsOpen(s)
    case Propose(_, _, _) => PR.Admit(l.deal, AsProposal(c)) == None
    case CreateJob(_) =>
      && s.status in {Confirmed, PendingPayment, Arranged}
      && (s.job.Some? ==> s.job.value.status == Abandoned)
      && (l.deal.isGoods ==> s.decision == PR.Buy)
    case ConfirmPickup => s.job.Some? && s.job.value.status == Taken && !s.job.value.ready
    case ConfirmTruck =>
      s.job.Some? && s.job.value.hired && s.job.value.status == Taken && s.job.value.ready && !s.job.value.arrived
    case ReportLoading =>
      s.job.Some? && s.job.value.status == Taken && s.job.value.ready && s.job.value.arrived && AnyPaid(s.transport)
    case ApproveLoading =>
      && s.job.Some? && s.job.value.status == Taken && s.job.value.ready && s.job.value.arrived
      && s.loading != Missing && s.decision == PR.Buy && AnyPaid(s.transport)
    case PayGoods(amount) =>
      && s.status != Disputed && s.status != Completed
      && SameMoney(amount, s.finalPrice)
      && (l.deal.isGoods && (l.inspectionRequired || Current(s).Some?) ==> ReportIsIn(s) && s.decision == PR.Buy)
      && GoodsUnlocked(s)
      && !AnyOwed(s.goods)
    case MoveJob(next, allowed) =>
      && s.job.Some? && allowed && s.status != Disputed
      && var j := s.job.value;
         && (next == PickedUp ==> j.ready && j.arrived && s.loading != Missing && j.approved && AnyPaid(s.goods))
         && !(j.hired && next == Taken)
         && (j.hired && next == Abandoned ==> !AnyInFlight(s.transport))
         && MayMoveJob(j.status, next)
         && (next == InTransit ==> !j.hired || AnyPaid(s.transport))
    case Dispute => MayMove(s.status, Disputed)
    case ConfirmReceipt =>
      && s.status != Completed
      && s.job.Some? && s.job.value.status == Delivered
      && AnyPaid(s.goods) && (s.job.value.hired ==> AnyPaid(s.transport))
  }

  function NewJob(hired: bool): Job {
    Job(hired, if hired then Wanted else Taken, false, false, false)
  }

  /** The transaction of an admitted call; None when one of its own checks fails. */
  function Commit(c: Call, s: State): Option<Outcome> {
    match c.action
    case Start(user) =>
      if IsOpen(s) && SameInspection(c, s) && s.inspection.value.inspector == Some(user) &&
         s.inspection.value.status == Agreed && s.inspection.value.confirmed && s.inspection.value.onSite
      then Some(Outcome(s.(inspection := Some(s.inspection.value.(status := InProgress))), Some(Started))) else None
    case Report(user) =>
      if IsOpen(s) && SameInspection(c, s) && s.inspection.value.inspector == Some(user) &&
         s.inspection.value.status == InProgress && !s.inspection.value.reported
      then Some(Outcome(s.(inspection := Some(s.inspection.value.(status := Done, reported := true))), Some(Reported)))
      else None
    case Propose(_, price, cancelling) =>
      if !cancelling && price.None? then None
      else
        (match PR.Commit(AsProposal(c), View(s))
         case Refused(_) => None
         case Done(o) => Some(Outcome(s.(reviews := o.reviews), Some(ReviewProposed))))
    case CreateJob(hired) =>
      if IsOpen(s) && (s.job.Some? ==> s.job.value.status == Abandoned)
      then Some(Outcome(s.(job := Some(NewJob(hired)), status := if s.status == Confirmed then Arranged else s.status),
                        Some(JobCreated)))
      else None
    case ConfirmPickup =>
      if s.job.Some? && s.job.value.status == Taken && !s.job.value.ready
      then Some(Outcome(s.(job := Some(s.job.value.(ready := true))), Some(PickupReady))) else None
    case ConfirmTruck =>
      if s.job.Some? && s.job.value.status == Taken && !s.job.value.arrived
      then Some(Outcome(s.(job := Some(s.job.value.(arrived := true))), Some(TruckArrived))) else None
    case ReportLoading =>
      if IsOpen(s) && s.job.Some? && s.job.value.status == Taken && s.loading == Missing
      then Some(Outcome(s.(loading := AwaitsReview), Some(LoadingReported))) else None
    case ApproveLoading =>
      if s.job.Some? && s.job.value.status == Taken && !s.job.value.approved && s.loading == AwaitsReview
      then Some(Outcome(s.(job := Some(s.job.value.(approved := true)), loading := Reviewed), Some(LoadingApproved)))
      else None
    case PayGoods(amount) =>
      if amount > 0.0 then Some(Outcome(s.(goods := s.goods + [Payment(PR.Cents(amount), Pending)]), Some(GoodsCreated)))
      else None
    case MoveJob(next, _) =>
      if IsOpen(s) && s.job.Some?
      then Some(Outcome(MoveOrder(s.(job := Some(s.job.value.(status := next))), next), JobEvent(next))) else None
    case Dispute =>
      if s.status == c.at.status && MayMove(s.status, Disputed)
      then Some(Quietly(s.(status := Disputed, resume := s.status))) else None
    case ConfirmReceipt =>
      if s.status != Completed && s.job.Some? && s.job.value.status == Delivered && MayMove(s.status, Completed)
      then Some(Outcome(s.(status := Completed), Some(Received))) else None
  }

  predicate SameInspection(c: Call, s: State) {
    c.at.inspection.Some? && s.inspection.Some? && s.inspection.value.id == c.at.inspection.value.id
  }

  function JobEvent(next: JobStatus): Option<Event> {
    match next
    case PickedUp => Some(Loaded)
    case InTransit => Some(OnRoad)
    case Delivered => Some(AtDestination)
    case _ => None
  }

  /** The order follows its transport. */
  function MoveOrder(s: State, next: JobStatus): State {
    if next == InTransit && s.status in {Arranged, Confirmed} then s.(status := OnTheWay)
    else if next == Delivered && s.status in {Arranged, OnTheWay, Confirmed} then s.(status := HandedOver)
    else s
  }

  // --------------------------------------------------------------------------
  // Transactions that read what they check, and the steps of other services
  // --------------------------------------------------------------------------

  // A payment that is paid while the order is disputed, or whose quote no longer matches the job, has no
  // effect at once; TakeEffect replays it.

  datatype Purse = Fee | Goods | Transport

  datatype Deed =
    | RequestInspection
    | AcceptQuote(inspector: int, fee: int)
    | SellerConfirms
    | ConfirmArrival
    | ReopenInspection
    | StallInspection
    | DropInspection
    | SyncDues(dues: seq<bool>)
    | PayFee(amount: int)
    | Respond(who: PR.Party, review: int, answer: PR.Answer)
    | Decide(buy: bool)
    | TakeTransport
    | PayTransport(amount: int)
    | ReleaseTransport
    | DropTransport
    | PaymentMoves(purse: Purse, index: int, to: PayStatus, effective: bool)
    | TakeEffect(paidPurse: Purse)
    | Dismiss
    | CancelInspectionService
    | CancelTransportService
    | CancelOrder

  function InspectionIs(s: State, status: InspectionStatus): bool {
    s.inspection.Some? && s.inspection.value.status == status
  }

  function WithInspection(s: State, i: Inspection): State {
    s.(inspection := Some(i))
  }

  function Reset(i: Inspection, status: InspectionStatus): Inspection {
    i.(status := status, inspector := None, confirmed := false, onSite := false)
  }

  /** Rows of one purse; fee payments belong to the current inspection request. */
  function Purses(s: State, purse: Purse): seq<Payment> {
    match purse
    case Goods => s.goods
    case Transport => s.transport
    case Fee => if s.inspection.Some? then s.inspection.value.feePayments else []
  }

  function SetPurse(s: State, purse: Purse, ps: seq<Payment>): State {
    match purse
    case Goods => s.(goods := ps)
    case Transport => s.(transport := ps)
    case Fee => if s.inspection.Some? then WithInspection(s, s.inspection.value.(feePayments := ps)) else s
  }

  /** What a paid payment does to the order: goods confirm it; a transport fee commits the hired truck. */
  function Settled(s: State, purse: Purse): State {
    match purse
    case Fee => s
    case Goods => if s.status == PendingPayment then s.(status := Confirmed) else s
    case Transport =>
      if IsOpen(s) && s.job.Some? && s.job.value.hired && s.job.value.status in {Wanted, Quoted, Taken}
      then s.(job := Some(s.job.value.(status := Taken)), status := if s.status == Confirmed then Arranged else s.status)
      else s
  }

  function PaidEvent(purse: Purse): Event {
    match purse case Fee => FeePaid case Goods => GoodsPaid case Transport => TransportPaid
  }

  function Do(l: Listing, s: State, d: Deed): Outcome {
    match d
    case RequestInspection =>
      if Current(s).None?
      then Quietly(s.(inspection := Some(Inspection(s.inspections, Requested, None, 0, false, false, false, [], [])),
                      inspections := s.inspections + 1))
      else Quietly(s)
    case AcceptQuote(inspector, fee) =>
      if IsOpen(s) && InspectionIs(s, Requested) && s.inspection.value.inspector == None
      then Outcome(WithInspection(s, s.inspection.value.(status := Agreed, inspector := Some(inspector), fee := fee,
                                                         confirmed := false)), Some(QuoteAccepted))
      else Quietly(s)
    case SellerConfirms =>
      if IsOpen(s) && s.status != Completed && InspectionIs(s, Agreed) && s.inspection.value.inspector.Some? &&
         !s.inspection.value.confirmed && !s.inspection.value.onSite && s.inspection.value.fee > 0
      then Outcome(WithInspection(s, s.inspection.value.(confirmed := true)), Some(SellerConfirmed))
      else Quietly(s)
    case ConfirmArrival =>
      if InspectionIs(s, Agreed) && s.inspection.value.inspector.Some? && s.inspection.value.confirmed &&
         !s.inspection.value.onSite
      then Outcome(WithInspection(s, s.inspection.value.(onSite := true)), Some(Arrived))
      else Quietly(s)
    case ReopenInspection =>
      if InspectionIs(s, Agreed) then Quietly(WithInspection(s, Reset(s.inspection.value, Requested))) else Quietly(s)
    case StallInspection =>
      if InspectionIs(s, Agreed) || InspectionIs(s, InProgress)
      then Quietly(WithInspection(s, s.inspection.value.(status := Stalled))) else Quietly(s)
    case DropInspection =>
      if s.inspection.Some? && s.inspection.value.status !in {InProgress, Done}
      then Quietly(WithInspection(s, s.inspection.value.(status := Dropped))) else Quietly(s)
    case SyncDues(dues) =>
      if s.inspection.Some? && (true in dues ==> DueMayBePaid(s.inspection.value))
      then Quietly(WithInspection(s, s.inspection.value.(dues := dues))) else Quietly(s)
    case PayFee(amount) =>
      if s.inspection.Some? && s.inspection.value.confirmed && s.inspection.value.onSite
      then Quietly(WithInspection(s, s.inspection.value.(feePayments := s.inspection.value.feePayments + [Payment(amount, Pending)])))
      else Quietly(s)
    case Respond(who, i, answer) =>
      (match PR.Respond(l.deal, View(s), who, i, answer)
       case Refused(_) => Quietly(s)
       case Done(o) =>
         if CannotCancel(s, o) then Quietly(s)
         else Outcome(Adopt(s, o), if o.decision == PR.Buy then Some(Bought)
                                   else if answer.Counter? then Some(ReviewProposed) else None))
    case Decide(buy) =>
      (match PR.Decide(l.deal, View(s), buy)
       case Refused(_) => Quietly(s)
       case Done(o) =>
         if CannotCancel(s, o) then Quietly(s)
         else Outcome(Adopt(s, o), if o.decision == PR.Buy then Some(Bought) else None))
    case TakeTransport =>
      if IsOpen(s) && s.job.Some? && s.job.value.status in {Wanted, Quoted}
      then Quietly(s.(job := Some(s.job.value.(status := Taken)))) else Quietly(s)
    case PayTransport(amount) =>
      if s.status != Disputed && s.job.Some? && s.job.value.hired && s.job.value.status == Taken
      then Quietly(s.(transport := s.transport + [Payment(amount, Pending)])) else Quietly(s)
    case ReleaseTransport =>
      if IsOpen(s) && s.job.Some? && s.job.value.hired && s.job.value.status == Taken && !AnyOwed(s.transport)
      then Quietly(s.(job := Some(Job(true, Quoted, false, false, false)))) else Quietly(s)
    case DropTransport =>
      if s.job.Some? && s.job.value.status == Taken
      then Quietly(s.(job := Some(s.job.value.(status := Abandoned)))) else Quietly(s)
    case PaymentMoves(purse, i, to, effective) =>
      var ps := Purses(s, purse);
      if 0 <= i < |ps| && MaySettle(ps[i].status, to) then
        var t := SetPurse(s, purse, ps[i := ps[i].(status := to)]);
        if to == Paid then Outcome(if effective then Settled(t, purse) else t, Some(PaidEvent(purse))) else Quietly(t)
      else Quietly(s)
    case TakeEffect(purse) => Quietly(if AnyPaid(Purses(s, purse)) then Settled(s, purse) else s)
    case Dismiss => Quietly(if s.status == Disputed then s.(status := s.resume) else s)
    case CancelInspectionService =>
      if s.status == Disputed
      then Quietly(s.(status := s.resume,
                      inspection := if s.inspection.Some? then Some(Reset(s.inspection.value, Dropped)) else None))
      else Quietly(s)
    case CancelTransportService =>
      if s.status == Disputed
      then Quietly(s.(status := s.resume,
                      job := if s.job.Some? && s.job.value.status != Abandoned
                             then Some(Job(s.job.value.hired, Abandoned, false, false, false)) else s.job))
      else Quietly(s)
    case CancelOrder =>
      Quietly(if MayMove(s.status, Cancelled) && (View(s).goodsMoving ==> s.status == Disputed) then CancelAll(s) else s)
  }

  /** An obligation is marked paid only when a payment of the request is. */
  predicate DueMayBePaid(i: Inspection) {
    true in i.dues || AnyPaid(i.feePayments)
  }

  // --------------------------------------------------------------------------
  // Interleaved runs
  // --------------------------------------------------------------------------

  datatype World = World(state: State, trace: seq<Event>, calls: seq<Call>)

  datatype Step = Read(action: Action) | Run(call: int) | Act(deed: Deed)

  function Record(w: World, o: Outcome): World {
    w.(state := o.state, trace := if o.event.Some? then w.trace + [o.event.value] else w.trace)
  }

  function Next(l: Listing, w: World, step: Step): World {
    match step
    case Read(action) =>
      var c := Call(action, w.state);
      if Admit(l, c) then w.(calls := w.calls + [c]) else w
    case Run(i) =>
      if 0 <= i < |w.calls| then
        match Commit(w.calls[i], w.state) case None => w case Some(o) => Record(w, o)
      else w
    case Act(d) => Record(w, Do(l, w.state, d))
  }

  function Opening(finalPrice: int): State {
    State(PendingPayment, PendingPayment, PR.Undecided, finalPrice, [], None, 0, None, Missing, [], [])
  }

  function After(l: Listing, finalPrice: int, steps: seq<Step>): World {
    if steps == [] then World(Opening(finalPrice), [], [])
    else Next(l, After(l, finalPrice, steps[..|steps| - 1]), steps[|steps| - 1])
  }

  /** Goods, agreed at no less than the seller's minimum. */
  predicate IsSale(l: Listing, finalPrice: int) {
    l.deal.isGoods && PR.NotUnderMinimum(l.deal, finalPrice)
  }

  predicate HiresTransport(step: Step) {
    step.Read? && step.action.CreateJob? ==> step.action.hiredTruck
  }
}
