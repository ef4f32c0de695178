/**
 Two limits of the order's guards, each with the run that shows it and the exact condition: a second truck whose
 loading can no longer be approved, and a dispute that a receipt ends.
 */
module OrderRunLimits {
  import opened Money
  import opened OrderRun
  import opened OrderRunSafety
  import PR = PriceReviews
  import W = OrderRunWitness

  function StateAfter(l: Listing, finalPrice: int, steps: seq<Step>): State {
    After(l, finalPrice, steps).state
  }

  // --------------------------------------------------------------------------
  // What orders look like when they are closed or disputed
  // --------------------------------------------------------------------------

  /** A dispute resumes an open order, and a cancelled order has no truck at work or wanted. */
  ghost predicate Tidy(s: State) {
    && s.resume in {PendingPayment, Confirmed, Arranged, OnTheWay, HandedOver}
    && (s.status == Cancelled && s.job.Some? ==> s.job.value.status in {Delivered, Abandoned})
  }

  lemma CommitKeepsTidy(c: Call, s: State)
    requires Tidy(s) && Commit(c, s).Some?
    ensures Tidy(Commit(c, s).value.state)
  {
  }

  lemma ExchangeKeepsTidy(l: Listing, s: State, d: Deed)
    requires Tidy(s) && (d.Respond? || d.Decide?)
    ensures Tidy(Do(l, s, d).state)
  {
    match d
    case Respond(who, i, answer) =>
      var r := PR.Respond(l.deal, View(s), who, i, answer);
      assert r.Done? ==> Tidy(Adopt(s, r.order));
    case Decide(buy) =>
      var r := PR.Decide(l.deal, View(s), buy);
      assert r.Done? ==> Tidy(Adopt(s, r.order));
  }

  lemma DeedKeepsTidy(l: Listing, s: State, d: Deed)
    requires Tidy(s) && !d.Respond? && !d.Decide?
    ensures Tidy(Do(l, s, d).state)
  {
  }

  lemma {:induction false} RunsAreTidy(l: Listing, finalPrice: int, steps: seq<Step>)
    ensures Tidy(StateAfter(l, finalPrice, steps))
  {
    if steps != [] {
      var w, step := After(l, finalPrice, steps[..|steps| - 1]), steps[|steps| - 1];
      RunsAreTidy(l, finalPrice, steps[..|steps| - 1]);
      match step {
        case Read(_) =>
        case Run(i) => if 0 <= i < |w.calls| && Commit(w.calls[i], w.state).Some? { CommitKeepsTidy(w.calls[i], w.state); }
        case Act(d) => if d.Respond? || d.Decide? { ExchangeKeepsTidy(l, w.state, d); } else { DeedKeepsTidy(l, w.state, d); }
      }
    }
  }

  // --------------------------------------------------------------------------
  // Approving a truck
  // --------------------------------------------------------------------------

  /** A hired job that has or may still get its truck, not yet approved. */
  predicate AwaitsApproval(s: State) {
    s.job.Some? && s.job.value.hired && s.job.value.status in {Wanted, Quoted, Taken} && !s.job.value.approved
  }

  predicate IsApproved(s: State) {
    s.job.Some? && s.job.value.approved
  }

  ghost predicate IsApprovedAfter(l: Listing, finalPrice: int, steps: seq<Step>, more: seq<Step>) {
    IsApproved(StateAfter(l, finalPrice, steps + more))
  }

  /** A dispute, if there is one, is dismissed. */
  lemma ResumeOrder(l: Listing, finalPrice: int, steps: seq<Step>) returns (more: seq<Step>)
    requires AwaitsApproval(StateAfter(l, finalPrice, steps))
    ensures steps <= more
    ensures var s, t := StateAfter(l, finalPrice, steps), StateAfter(l, finalPrice, more);
      IsOpen(t) && t == s.(status := t.status)
  {
    RunsAreTidy(l, finalPrice, steps);
    more := steps;
    if StateAfter(l, finalPrice, steps).status == Disputed {
      more := Perform(l, finalPrice, steps, Dismiss);
    }
  }

  /** Somebody's truck is taken, the goods are ready and the truck is there. */
  lemma BringTruck(l: Listing, finalPrice: int, steps: seq<Step>) returns (more: seq<Step>)
    requires AwaitsApproval(StateAfter(l, finalPrice, steps)) && IsOpen(StateAfter(l, finalPrice, steps))
    ensures steps <= more
    ensures var s, t := StateAfter(l, finalPrice, steps), StateAfter(l, finalPrice, more);
      t == s.(job := Some(Job(true, Taken, true, true, false)))
  {
    more := steps;
    if StateAfter(l, finalPrice, more).job.value.status != Taken {
      more := Perform(l, finalPrice, more, TakeTransport);
    }
    if !StateAfter(l, finalPrice, more).job.value.ready {
      more := Handle(l, finalPrice, more, ConfirmPickup);
    }
    if !StateAfter(l, finalPrice, more).job.value.arrived {
      more := Handle(l, finalPrice, more, ConfirmTruck);
    }
  }

  lemma PayTruck(l: Listing, finalPrice: int, steps: seq<Step>) returns (more: seq<Step>)
    requires StateAfter(l, finalPrice, steps).job == Some(Job(true, Taken, true, true, false))
    requires IsOpen(StateAfter(l, finalPrice, steps))
    ensures steps <= more
    ensures var s, t := StateAfter(l, finalPrice, steps), StateAfter(l, finalPrice, more);
      AnyPaid(t.transport) && t == s.(transport := t.transport)
  {
    var s := StateAfter(l, finalPrice, steps);
    var n := |s.transport|;
    more := Perform(l, finalPrice, steps, PayTransport(1));
    var billed := StateAfter(l, finalPrice, more);
    assert billed.transport[n] == Payment(1, Pending);
    more := Perform(l, finalPrice, more, PaymentMoves(Transport, n, Paid, false));
    assert StateAfter(l, finalPrice, more).transport[n].status == Paid;
  }

  lemma ApproveTruck(l: Listing, finalPrice: int, steps: seq<Step>) returns (more: seq<Step>)
    requires var s := StateAfter(l, finalPrice, steps);
      s.job == Some(Job(true, Taken, true, true, false)) && IsOpen(s) && AnyPaid(s.transport) &&
      s.decision == PR.Buy && s.loading != Reviewed
    ensures steps <= more && IsApproved(StateAfter(l, finalPrice, more))
  {
    more := steps;
    if StateAfter(l, finalPrice, more).loading == Missing {
      more := Handle(l, finalPrice, more, ReportLoading);
    }
    more := Handle(l, finalPrice, more, ApproveLoading);
  }

  lemma TruckCanBeApproved(l: Listing, finalPrice: int, steps: seq<Step>) returns (more: seq<Step>)
    requires AwaitsApproval(StateAfter(l, finalPrice, steps))
    requires StateAfter(l, finalPrice, steps).decision == PR.Buy && StateAfter(l, finalPrice, steps).loading != Reviewed
    ensures IsApprovedAfter(l, finalPrice, steps, more)
  {
    var longer := ResumeOrder(l, finalPrice, steps);
    longer := BringTruck(l, finalPrice, longer);
    longer := PayTruck(l, finalPrice, longer);
    longer := ApproveTruck(l, finalPrice, longer);
    more := longer[|steps|..];
    assert steps + more == longer;
  }

  /**
   In every reachable state a hired job without approval can still be approved, by some continuation, exactly when
   the order's one loading report has not been reviewed.
   */
  lemma {:induction false} TruckCanBeApprovedIff(l: Listing, finalPrice: int, steps: seq<Step>)
    requires IsSale(l, finalPrice) && AwaitsApproval(StateAfter(l, finalPrice, steps))
    ensures (exists more :: IsApprovedAfter(l, finalPrice, steps, more)) <==>
      StateAfter(l, finalPrice, steps).loading != Reviewed
  {
    RunsAreSound(l, finalPrice, steps, false);
    if StateAfter(l, finalPrice, steps).loading != Reviewed {
      var more := TruckCanBeApproved(l, finalPrice, steps);
      assert IsApprovedAfter(l, finalPrice, steps, more);
    } else {
      forall more ensures !IsApprovedAfter(l, finalPrice, steps, more) {
        NewTruckIsNeverApproved(l, finalPrice, steps, more);
      }
    }
  }

  /** What that means for the order: from then on no goods payment for hired transport and no pickup is admitted. */
  lemma {:induction false} UsedUpReportBlocksTheOrder(l: Listing, finalPrice: int, steps: seq<Step>, more: seq<Step>,
    amount: real, allowed: bool)
    requires ReportIsUsedUp(StateAfter(l, finalPrice, steps))
    ensures var s := StateAfter(l, finalPrice, steps + more);
      && !Admit(l, Call(MoveJob(PickedUp, allowed), s))
      && (s.job.Some? && s.job.value.hired ==> !Admit(l, Call(PayGoods(amount), s)))
  {
    NewTruckIsNeverApproved(l, finalPrice, steps, more);
  }

  /** It happens: a second truck is taken that no continuation will approve. */
  lemma SecondTruckIsStuck()
    ensures exists steps :: AllHired(steps) && IsStuck(steps)
  {
    var steps := W.AnotherTruckIsTaken();
    forall more ensures !IsApprovedAfter(W.GOODS, W.PRICE, steps, more) {
      NewTruckIsNeverApproved(W.GOODS, W.PRICE, steps, more);
    }
    assert IsStuck(steps);
  }

  ghost predicate IsStuck(steps: seq<Step>) {
    && AwaitsApproval(StateAfter(W.GOODS, W.PRICE, steps))
    && StateAfter(W.GOODS, W.PRICE, steps).job.value.status == Taken
    && forall more :: !IsApprovedAfter(W.GOODS, W.PRICE, steps, more)
  }

  // --------------------------------------------------------------------------
  // Ending a dispute
  // --------------------------------------------------------------------------

  predicate IsResolution(step: Step) {
    step.Act? && (step.deed.Dismiss? || step.deed.CancelInspectionService? || step.deed.CancelTransportService? ||
                  step.deed.CancelOrder?)
  }

  predicate IsDelivered(s: State) {
    s.job.Some? && s.job.value.status == Delivered
  }

  /** An admitted receipt that runs while the job is delivered. */
  predicate IsReceipt(w: World, step: Step) {
    step.Run? && 0 <= step.call < |w.calls| && w.calls[step.call].action.ConfirmReceipt? && IsDelivered(w.state)
  }

  lemma DisputeOutlivesCommit(c: Call, s: State)
    requires s.status == Disputed && Commit(c, s).Some?
    ensures Commit(c, s).value.state.status != Disputed <==> c.action.ConfirmReceipt?
    ensures IsDelivered(Commit(c, s).value.state) <==> IsDelivered(s)
    ensures c.action.ConfirmReceipt? ==> IsDelivered(s)
  {
  }

  lemma DisputeOutlivesDeed(l: Listing, s: State, d: Deed)
    requires s.status == Disputed && Tidy(s)
    ensures Do(l, s, d).state.status != Disputed <==> IsResolution(Act(d))
    ensures IsDelivered(Do(l, s, d).state) ==> IsDelivered(s)
  {
    if d.Respond? {
      assert PR.Respond(l.deal, View(s), d.who, d.review, d.answer).Refused?;
    } else if d.Decide? {
      assert PR.Decide(l.deal, View(s), d.buy).Refused?;
    }
  }

  /** In every reachable state, a step ends a dispute exactly when it resolves it or receives delivered goods. */
  lemma {:induction false} DisputeEndsIff(l: Listing, finalPrice: int, steps: seq<Step>, step: Step)
    requires StateAfter(l, finalPrice, steps).status == Disputed
    ensures var w := After(l, finalPrice, steps);
      Next(l, w, step).state.status != Disputed <==> IsResolution(step) || IsReceipt(w, step)
  {
    RunsAreTidy(l, finalPrice, steps);
    var w := After(l, finalPrice, steps);
    match step
    case Read(_) =>
    case Run(i) =>
      if 0 <= i < |w.calls| {
        if Commit(w.calls[i], w.state).Some? {
          DisputeOutlivesCommit(w.calls[i], w.state);
        }
      }
    case Act(d) => DisputeOutlivesDeed(l, w.state, d);
  }

  ghost predicate NoResolution(steps: seq<Step>) {
    forall i :: 0 <= i < |steps| ==> !IsResolution(steps[i])
  }

  /** Before delivery a dispute is binding: nothing but a resolution ends it, however long the run goes on. */
  lemma {:induction false} DisputeIsBindingBeforeDelivery(l: Listing, finalPrice: int, steps: seq<Step>, more: seq<Step>)
    requires StateAfter(l, finalPrice, steps).status == Disputed && !IsDelivered(StateAfter(l, finalPrice, steps))
    requires NoResolution(more)
    ensures StateAfter(l, finalPrice, steps + more).status == Disputed
    ensures !IsDelivered(StateAfter(l, finalPrice, steps + more))
  {
    if more == [] {
      assert steps + more == steps;
    } else {
      var prefix, step := steps + more[..|more| - 1], more[|more| - 1];
      assert steps + more == prefix + [step];
      DisputeIsBindingBeforeDelivery(l, finalPrice, steps, more[..|more| - 1]);
      AfterOne(l, finalPrice, prefix, step);
      DisputeEndsIff(l, finalPrice, prefix, step);
      StaysUndelivered(l, finalPrice, prefix, step);
    }
  }

  lemma StaysUndelivered(l: Listing, finalPrice: int, steps: seq<Step>, step: Step)
    requires StateAfter(l, finalPrice, steps).status == Disputed && !IsDelivered(StateAfter(l, finalPrice, steps))
    ensures !IsDelivered(Next(l, After(l, finalPrice, steps), step).state)
  {
    RunsAreTidy(l, finalPrice, steps);
    var w := After(l, finalPrice, steps);
    match step
    case Read(_) =>
    case Run(i) =>
      if 0 <= i < |w.calls| && Commit(w.calls[i], w.state).Some? {
        DisputeOutlivesCommit(w.calls[i], w.state);
      }
    case Act(d) => DisputeOutlivesDeed(l, w.state, d);
  }

  ghost predicate EndsUnresolved(steps: seq<Step>, more: seq<Step>) {
    && StateAfter(W.GOODS, W.PRICE, steps).status == Disputed && NoResolution(more)
    && StateAfter(W.GOODS, W.PRICE, steps + more).status == Completed
  }

  /** After delivery it is not: a run in which the buyer's receipt completes a disputed order nobody has resolved. */
  lemma ReceiptOverridesDispute()
    ensures exists steps, more :: AllHired(steps) && EndsUnresolved(steps, more)
  {
    var steps := W.DeliveryIsDisputed();
    W.PaidIsPaid();
    var more: seq<Step> := [Read(ConfirmReceipt), Run(|After(W.GOODS, W.PRICE, steps).calls|)];
    var longer := Handle(W.GOODS, W.PRICE, steps, ConfirmReceipt);
    assert longer == steps + more;
    assert EndsUnresolved(steps, more);
  }

  // --------------------------------------------------------------------------
  // Where a resolved dispute leaves the order
  // --------------------------------------------------------------------------

  ghost predicate StaysDisputed(l: Listing, finalPrice: int, steps: seq<Step>, more: seq<Step>) {
    forall n :: 0 <= n <= |more| ==> StateAfter(l, finalPrice, steps + more[..n]).status == Disputed
  }

  lemma StepRemembersResume(l: Listing, w: World, step: Step)
    requires w.state.resume != Disputed && Next(l, w, step).state.status == Disputed
    ensures Next(l, w, step).state.resume == if w.state.status == Disputed then w.state.resume else w.state.status
  {
    match step
    case Read(_) =>
    case Run(i) =>
      if 0 <= i < |w.calls| && Commit(w.calls[i], w.state).Some? {
        CommitRemembersResume(w.calls[i], w.state);
      }
    case Act(d) => DeedRemembersResume(l, w.state, d);
  }

  lemma CommitRemembersResume(c: Call, s: State)
    requires Commit(c, s).Some? && Commit(c, s).value.state.status == Disputed
    ensures Commit(c, s).value.state.resume == if s.status == Disputed then s.resume else s.status
  {
  }

  lemma ExchangeNeverFreezes(l: Listing, s: State, d: Deed)
    requires d.Respond? || d.Decide?
    ensures Do(l, s, d).state.status in {s.status, Cancelled} && Do(l, s, d).state.resume == s.resume
  {
    match d
    case Respond(who, i, answer) =>
      var r := PR.Respond(l.deal, View(s), who, i, answer);
      assert r.Done? ==> Adopt(s, r.order).status in {s.status, Cancelled};
    case Decide(buy) =>
      var r := PR.Decide(l.deal, View(s), buy);
      assert r.Done? ==> Adopt(s, r.order).status in {s.status, Cancelled};
  }

  /** Only the dispute handler freezes an order. */
  lemma DeedRemembersResume(l: Listing, s: State, d: Deed)
    requires Do(l, s, d).state.status == Disputed && s.resume != Disputed
    ensures s.status == Disputed && Do(l, s, d).state.resume == s.resume
  {
    if d.Respond? || d.Decide? {
      ExchangeNeverFreezes(l, s, d);
    }
  }

  lemma {:induction false} DisputeRemembersStatus(l: Listing, finalPrice: int, steps: seq<Step>, step: Step, more: seq<Step>)
    requires StateAfter(l, finalPrice, steps).status != Disputed && StaysDisputed(l, finalPrice, steps + [step], more)
    ensures StateAfter(l, finalPrice, steps + [step] + more).status == Disputed
    ensures StateAfter(l, finalPrice, steps + [step] + more).resume == StateAfter(l, finalPrice, steps).status
  {
    var raised := steps + [step];
    if more == [] {
      assert raised + more[..0] == raised && raised + more == raised;
      AfterOne(l, finalPrice, steps, step);
      RunsAreTidy(l, finalPrice, steps);
      StepRemembersResume(l, After(l, finalPrice, steps), step);
    } else {
      var n := |more| - 1;
      assert raised + more[..|more|] == raised + more;
      forall k | 0 <= k <= n ensures StateAfter(l, finalPrice, raised + more[..n][..k]).status == Disputed {
        assert more[..n][..k] == more[..k];
      }
      DisputeRemembersStatus(l, finalPrice, steps, step, more[..n]);
      assert raised + more == raised + more[..n] + [more[n]];
      AfterOne(l, finalPrice, raised + more[..n], more[n]);
      RunsAreTidy(l, finalPrice, raised + more[..n]);
      StepRemembersResume(l, After(l, finalPrice, raised + more[..n]), more[n]);
    }
  }

  predicate ResumesOrder(d: Deed) {
    d.Dismiss? || d.CancelInspectionService? || d.CancelTransportService?
  }

  /** The cancelled inspection is nobody's; what was paid and reported for it stays on file. */
  predicate InspectionIsDropped(a: Option<Inspection>, b: Option<Inspection>) {
    if a.None? then b.None? else
      b == Some(a.value.(status := Dropped, inspector := None, confirmed := false, onSite := false))
  }

  /** The cancelled job is abandoned with no mark left; one that was abandoned already stays as it is. */
  predicate JobIsDropped(a: Option<Job>, b: Option<Job>) {
    if a.None? || a.value.status == Abandoned then b == a else
      b == Some(a.value.(status := Abandoned, ready := false, arrived := false, approved := false))
  }

  /**
   A dispute gives back what it froze. Whatever the step that raised it and however long it lasted, a resolution that
   does not cancel the order leaves it in the status it had when the dispute was raised, and touches nothing but
   the service that it cancels.
   */
  lemma {:induction false} ResolutionRestoresTheOrder(l: Listing, finalPrice: int, steps: seq<Step>, step: Step,
    more: seq<Step>, d: Deed)
    requires StateAfter(l, finalPrice, steps).status != Disputed && StaysDisputed(l, finalPrice, steps + [step], more)
    requires ResumesOrder(d)
    ensures var x, s := StateAfter(l, finalPrice, steps).status, StateAfter(l, finalPrice, steps + [step] + more);
      var t := StateAfter(l, finalPrice, steps + [step] + more + [Act(d)]);
      && t == s.(status := x, inspection := t.inspection, job := t.job)
      && (if d.CancelInspectionService? then InspectionIsDropped(s.inspection, t.inspection) else t.inspection == s.inspection)
      && (if d.CancelTransportService? then JobIsDropped(s.job, t.job) else t.job == s.job)
  {
    DisputeRemembersStatus(l, finalPrice, steps, step, more);
    AfterOne(l, finalPrice, steps + [step] + more, Act(d));
  }
}
