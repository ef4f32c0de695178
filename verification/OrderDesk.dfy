/** The order's handlers as they run: guarded updates of one row after another. */
module OrderDesk {
  import opened Money
  import opened OrderRun
  import PR = PriceReviews
  import Safe = OrderRunSafety
  import Limits = OrderRunLimits

  /** A transaction did what its specification says: it left `after` and recorded `event`, or changed nothing. */
  ghost predicate Runs(before: State, c: Call, done: bool, event: Option<Event>, after: State) {
    match Commit(c, before)
    case None => !done && after == before
    case Some(o) => done && after == o.state && event == o.event
  }

  /** The rows of one order. `log` is the run so far: the rows are always what its steps lead to. */
  class Desk {
    const terms: Listing
    const agreed: int
    ghost var log: seq<Step>
    var status: OrderStatus
    var resume: OrderStatus
    var decision: PR.Decision
    var finalPrice: int
    var reviews: seq<PR.Review>
    var inspection: Option<Inspection>
    var inspections: int
    var job: Option<Job>
    var loading: LoadingReport
    var goods: seq<Payment>
    var transport: seq<Payment>

    function Rows(): State
      reads this
    {
      State(status, resume, decision, finalPrice, reviews, inspection, inspections, job, loading, goods, transport)
    }

    ghost function Run(): World
      reads this
    {
      After(terms, agreed, log)
    }

    ghost predicate Valid()
      reads this
    {
      Rows() == Run().state
    }

    /** The call was admitted; its transaction may run. */
    ghost predicate IsPending(place: int, c: Call)
      reads this
    {
      0 <= place < |Run().calls| && Run().calls[place] == c
    }

    constructor (l: Listing, finalPrice: int)
      ensures Valid() && terms == l && agreed == finalPrice && log == [] && Rows() == Opening(finalPrice)
    {
      terms, agreed, log := l, finalPrice, [];
      status, resume, decision, this.finalPrice, reviews := PendingPayment, PendingPayment, PR.Undecided, finalPrice, [];
      inspection, inspections, job, loading, goods, transport := None, 0, None, Missing, [], [];
    }

    /** Note the step about to be taken. */
    ghost method Note(step: Step)
      modifies this`log
      ensures log == old(log) + [step]
      ensures Run() == Next(terms, old(Run()), step)
    {
      Safe.AfterOne(terms, agreed, log, step);
      log := log + [step];
    }

    /** What the rows inherit from all their runs: one agreed price, and goods payments within a cent of it. */
    lemma PricesAreInOrder()
      requires Valid() && IsSale(terms, agreed)
      ensures PR.OneAgreement(View(Rows())) && PR.OnePending(reviews) && PR.NotUnderMinimum(terms.deal, finalPrice)
      ensures goods != [] ==> decision == PR.Buy
      ensures forall i :: 0 <= i < |goods| ==> finalPrice - 1 <= goods[i].amount <= finalPrice + 1
    {
      Safe.OrderPriceIsBilateral(terms, agreed, log);
      forall i | 0 <= i < |goods| ensures decision == PR.Buy && finalPrice - 1 <= goods[i].amount <= finalPrice + 1 {
        assert goods == Run().state.goods;
        Safe.GoodsPaymentsMatchThePrice(terms, agreed, log, i);
      }
      assert goods != [] ==> finalPrice - 1 <= goods[0].amount;
    }

    /** An order completed at the desk went through the whole course, if its trucks were hired. */
    lemma CompletedMeansCourse()
      requires Valid() && IsSale(terms, agreed) && Safe.AllHired(log) && status == Completed
      ensures Safe.IsSubsequence(Safe.COURSE, Run().trace)
    {
      Safe.CompletedOrdersRanTheCourse(terms, agreed, log);
    }

    /** The checks on the first read; an admitted call may run its transaction later. */
    method Receive(action: Action) returns (admitted: bool, c: Call, ghost place: int)
      requires Valid()
      modifies this`log
      ensures Valid() && log == old(log) + [Read(action)]
      ensures c == Call(action, Rows()) && admitted == Admit(terms, c)
      ensures admitted ==> IsPending(place, c)
    {
      Note(Read(action));
      c := Call(action, Rows());
      admitted, place := Admit(terms, c), |old(Run()).calls|;
    }

    /** A transaction of another service. */
    method Elsewhere(d: Deed) returns (event: Option<Event>)
      requires Valid()
      modifies this
      ensures Outcome(Rows(), event) == Do(terms, old(Rows()), d)
      ensures Valid() && log == old(log) + [Act(d)]
    {
      Note(Act(d));
      var o := Do(terms, Rows(), d);
      Store(o.state);
      event := o.event;
    }

    method Store(s: State)
      modifies this
      ensures Rows() == s && log == old(log)
    {
      status, resume, decision, finalPrice, reviews := s.status, s.resume, s.decision, s.finalPrice, s.reviews;
      inspection, inspections, job, loading := s.inspection, s.inspections, s.job, s.loading;
      goods, transport := s.goods, s.transport;
    }

    /** transitionOrderStatus: move on only from the expected status, along an allowed move. */
    method Transition(from: OrderStatus, to: OrderStatus) returns (moved: bool)
      modifies this`status
      ensures moved == (old(status) == from && MayMove(from, to))
      ensures status == if moved then to else old(status)
    {
      moved := status == from && MayMove(from, to);
      if moved {
        status := to;
      }
    }

    method StartInspection(c: Call, ghost place: int) returns (done: bool, event: Option<Event>)
      requires Valid() && IsPending(place, c) && c.action.Start?
      modifies this`inspection, this`log
      ensures Runs(old(Rows()), c, done, event, Rows())
      ensures Valid() && log == old(log) + [Step.Run(place)]
    {
      Note(Step.Run(place));
      done, event := false, None;
      if status == Disputed || status == Cancelled || inspection.None? || c.at.inspection.None? {
        return;
      }
      var i := inspection.value;
      if i.id != c.at.inspection.value.id || i.inspector != Some(c.action.user) || i.status != Agreed ||
         !i.confirmed || !i.onSite {
        return;
      }
      inspection := Some(i.(status := InProgress));
      done, event := true, Some(Started);
    }

    /** The report and the move to completed are one transaction. */
    method SubmitReport(c: Call, ghost place: int) returns (done: bool, event: Option<Event>)
      requires Valid() && IsPending(place, c) && c.action.Report?
      modifies this`inspection, this`log
      ensures Runs(old(Rows()), c, done, event, Rows())
      ensures Valid() && log == old(log) + [Step.Run(place)]
    {
      Note(Step.Run(place));
      done, event := false, None;
      if status == Disputed || status == Cancelled || inspection.None? || c.at.inspection.None? {
        return;
      }
      var i := inspection.value;
      if i.id != c.at.inspection.value.id || i.reported || i.inspector != Some(c.action.user) || i.status != InProgress {
        return;
      }
      i := i.(reported := true);
      i := i.(status := Done);
      inspection := Some(i);
      done, event := true, Some(Reported);
    }

    method CreateTransport(c: Call, ghost place: int) returns (done: bool, event: Option<Event>)
      requires Valid() && IsPending(place, c) && c.action.CreateJob?
      modifies this`job, this`status, this`log
      ensures Runs(old(Rows()), c, done, event, Rows())
      ensures Valid() && log == old(log) + [Step.Run(place)]
    {
      Note(Step.Run(place));
      done, event := false, None;
      if status == Disputed || status == Cancelled {
        return;
      }
      if job.Some? && job.value.status != Abandoned {
        return;
      }
      job := Some(Job(c.action.hiredTruck, if c.action.hiredTruck then Wanted else Taken, false, false, false));
      if status == Confirmed {
        status := Arranged;
      }
      done, event := true, Some(JobCreated);
    }

    method ConfirmPickupReady(c: Call, ghost place: int) returns (done: bool, event: Option<Event>)
      requires Valid() && IsPending(place, c) && c.action.ConfirmPickup?
      modifies this`job, this`log
      ensures Runs(old(Rows()), c, done, event, Rows())
      ensures Valid() && log == old(log) + [Step.Run(place)]
    {
      Note(Step.Run(place));
      done, event := job.Some? && job.value.status == Taken && !job.value.ready, None;
      if done {
        job := Some(job.value.(ready := true));
        event := Some(PickupReady);
      }
    }

    method ConfirmTruckArrival(c: Call, ghost place: int) returns (done: bool, event: Option<Event>)
      requires Valid() && IsPending(place, c) && c.action.ConfirmTruck?
      modifies this`job, this`log
      ensures Runs(old(Rows()), c, done, event, Rows())
      ensures Valid() && log == old(log) + [Step.Run(place)]
    {
      Note(Step.Run(place));
      done, event := job.Some? && job.value.status == Taken && !job.value.arrived, None;
      if done {
        job := Some(job.value.(arrived := true));
        event := Some(TruckArrived);
      }
    }

    method SubmitLoadingReport(c: Call, ghost place: int) returns (done: bool, event: Option<Event>)
      requires Valid() && IsPending(place, c) && c.action.ReportLoading?
      modifies this`loading, this`log
      ensures Runs(old(Rows()), c, done, event, Rows())
      ensures Valid() && log == old(log) + [Step.Run(place)]
    {
      Note(Step.Run(place));
      done, event := false, None;
      if status == Disputed || status == Cancelled || job.None? || job.value.status != Taken {
        return;
      }
      if loading != Missing {
        return;
      }
      loading := AwaitsReview;
      done, event := true, Some(LoadingReported);
    }

    /** The approval is rolled back when the report was no longer waiting for review. */
    method ApproveLoadingReport(c: Call, ghost place: int) returns (done: bool, event: Option<Event>)
      requires Valid() && IsPending(place, c) && c.action.ApproveLoading?
      modifies this`job, this`loading, this`log
      ensures Runs(old(Rows()), c, done, event, Rows())
      ensures Valid() && log == old(log) + [Step.Run(place)]
    {
      Note(Step.Run(place));
      done, event := false, None;
      if job.None? || job.value.status != Taken || job.value.approved {
        return;
      }
      var before := job;
      job := Some(job.value.(approved := true));
      if loading != AwaitsReview {
        job := before;
        return;
      }
      loading := Reviewed;
      done, event := true, Some(LoadingApproved);
    }

    method CreateGoodsPayment(c: Call, ghost place: int) returns (done: bool, event: Option<Event>)
      requires Valid() && IsPending(place, c) && c.action.PayGoods?
      modifies this`goods, this`log
      ensures Runs(old(Rows()), c, done, event, Rows())
      ensures Valid() && log == old(log) + [Step.Run(place)]
    {
      Note(Step.Run(place));
      done, event := c.action.amount > 0.0, None;
      if done {
        goods := goods + [Payment(PR.Cents(c.action.amount), Pending)];
        event := Some(GoodsCreated);
      }
    }

    /** The job's status is written without looking at it again; the order then follows. */
    method UpdateTransportStatus(c: Call, ghost place: int) returns (done: bool, event: Option<Event>)
      requires Valid() && IsPending(place, c) && c.action.MoveJob?
      modifies this`job, this`status, this`log
      ensures Runs(old(Rows()), c, done, event, Rows())
      ensures Valid() && log == old(log) + [Step.Run(place)]
    {
      Note(Step.Run(place));
      done, event := false, None;
      if status == Disputed || status == Cancelled || job.None? {
        return;
      }
      var next := c.action.next;
      job := Some(job.value.(status := next));
      if next == InTransit {
        if status == Arranged {
          var _ := Transition(Arranged, OnTheWay);
        } else if status == Confirmed {
          var _ := Transition(Confirmed, Arranged);
          var _ := Transition(Arranged, OnTheWay);
        }
      }
      if next == Delivered {
        if status == Arranged {
          var _ := Transition(Arranged, HandedOver);
        } else if status == OnTheWay {
          var _ := Transition(OnTheWay, HandedOver);
        } else if status == Confirmed {
          var _ := Transition(Confirmed, Arranged);
          var _ := Transition(Arranged, HandedOver);
        }
      }
      done, event := true, JobEvent(next);
    }

    method RaiseDispute(c: Call, ghost place: int) returns (done: bool, event: Option<Event>)
      requires Valid() && IsPending(place, c) && c.action.Dispute?
      modifies this`status, this`resume, this`log
      ensures Runs(old(Rows()), c, done, event, Rows())
      ensures Valid() && log == old(log) + [Step.Run(place)]
    {
      Note(Step.Run(place));
      event := None;
      done := Transition(c.at.status, Disputed);
      if done {
        resume := c.at.status;
      }
    }

    method ConfirmReceiptOfGoods(c: Call, ghost place: int) returns (done: bool, event: Option<Event>)
      requires Valid() && IsPending(place, c) && c.action.ConfirmReceipt?
      modifies this`status, this`log
      ensures Runs(old(Rows()), c, done, event, Rows())
      ensures Valid() && log == old(log) + [Step.Run(place)]
    {
      Note(Step.Run(place));
      done, event := false, None;
      if status == Completed || job.None? || job.value.status != Delivered {
        return;
      }
      done := Transition(status, Completed);
      if done {
        event := Some(Received);
      }
    }

    /** cancelOrderInTransaction, for callers that have checked that the order may be cancelled. */
    method CancelEverything()
      modifies this`status, this`job, this`inspection
      ensures Rows() == CancelAll(old(Rows()))
    {
      status := Cancelled;
      if job.Some? && job.value.status != Delivered && job.value.status != Abandoned {
        job := Some(job.value.(status := Abandoned));
      }
      if inspection.Some? && inspection.value.status != Done {
        inspection := Some(inspection.value.(status := Dropped));
      }
    }

    /** An order is cancelled while its status allows it and its goods are not moving, unless it is disputed. */
    method CancelOrder() returns (done: bool)
      requires Valid()
      modifies this`status, this`job, this`inspection, this`log
      ensures done == (MayMove(old(status), Cancelled) && (old(View(Rows())).goodsMoving ==> old(status) == Disputed))
      ensures Rows() == if done then CancelAll(old(Rows())) else old(Rows())
      ensures Valid() && log == old(log) + [Act(Deed.CancelOrder)]
    {
      Note(Act(Deed.CancelOrder));
      done := MayMove(status, Cancelled);
      if status != Disputed && job.Some? && job.value.status in {PickedUp, InTransit, Delivered} {
        done := false;
      }
      if done {
        CancelEverything();
      }
    }

    /** Resolve a dispute by cancelling its transport, or by nothing but resuming the order. */
    method ResolveDispute(cancelTransport: bool) returns (resolved: bool)
      requires Valid()
      modifies this`status, this`job, this`log
      ensures resolved == (old(status) == Disputed)
      ensures resolved ==> status == old(resume)
      ensures Rows() == old(Rows()).(status := status, job := job)
      ensures !cancelTransport || !resolved ==> job == old(job)
      ensures cancelTransport && resolved ==> Limits.JobIsDropped(old(job), job)
      ensures Rows() == Do(terms, old(Rows()), if cancelTransport then CancelTransportService else Dismiss).state
      ensures Valid() && log == old(log) + [Act(if cancelTransport then CancelTransportService else Dismiss)]
    {
      Note(Act(if cancelTransport then CancelTransportService else Dismiss));
      resolved := status == Disputed;
      if !resolved {
        return;
      }
      if cancelTransport && job.Some? && job.value.status != Abandoned {
        var j := job.value;
        j := j.(arrived := false);
        j := j.(ready := false);
        j := j.(approved := false);
        j := j.(status := Abandoned);
        job := Some(j);
      }
      status := resume;
    }
  }
}
