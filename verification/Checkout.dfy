/**
 Opening a provider checkout for a payment: read it pending, claim it, ask the provider, and either store
 the reference of the opened checkout or give the claim back. Attempts on all payments interleave, and
 the provider may settle a payment at any time.
 */
module Checkout {
  import opened Money

  datatype Status = Pending | Processing | Paid | Failed | Reconciling | RefundPending | Refunded

  datatype Payment = Payment(status: Status, reference: Option<int>)

  /** Ready: read pending. Claimed: waiting for the provider. Opened, Turned: the provider accepted, refused. */
  datatype Phase = Ready | Claimed | Opened | Stored | Turned | GaveBack | Refused

  datatype Attempt = Attempt(payment: int, reference: int, phase: Phase)

  datatype World = World(payments: seq<Payment>, attempts: seq<Attempt>)

  datatype Step =
    | Create
    | Begin(payment: int, reference: int)
    | Claim(attempt: int)
    | Answer(attempt: int, accepted: bool)
    | Store(attempt: int)
    | GiveBack(attempt: int)
    | Settle(payment: int, status: Status)

  const START: World := World([], [])

  // --------------------------------------------------------------------------
  // Steps
  // --------------------------------------------------------------------------

  predicate IsPayment(w: World, p: int) {
    0 <= p < |w.payments|
  }

  predicate IsIn(w: World, i: int, phase: Phase) {
    0 <= i < |w.attempts| && w.attempts[i].phase == phase && IsPayment(w, w.attempts[i].payment)
  }

  /** Settlement never makes a payment pending again; a refund is final and a paid payment does not fail. */
  predicate MaySettle(a: Status, b: Status) {
    && b != Pending
    && (a == Refunded ==> b == Refunded)
    && (a == Paid ==> b != Failed && b != Reconciling)
    && (a == Reconciling ==> b in {Paid, Failed, Refunded, Reconciling})
  }

  function Become(w: World, i: int, phase: Phase): World
    requires 0 <= i < |w.attempts|
  {
    w.(attempts := w.attempts[i := w.attempts[i].(phase := phase)])
  }

  function SetPayment(w: World, p: int, payment: Payment): World
    requires IsPayment(w, p)
  {
    w.(payments := w.payments[p := payment])
  }

  /** updateMany from one status to another: the new row when it had the expected status. */
  function Swap(row: Payment, from: Status, to: Status): Option<Payment> {
    if row.status == from then Some(row.(status := to)) else None
  }

  function Next(w: World, step: Step): World {
    match step
    case Create => w.(payments := w.payments + [Payment(Pending, None)])
    case Begin(p, reference) =>
      if IsPayment(w, p) && w.payments[p].status == Pending
      then w.(attempts := w.attempts + [Attempt(p, reference, Ready)]) else w
    case Claim(i) =>
      if IsIn(w, i, Ready) then
        var p := w.attempts[i].payment;
        match Swap(w.payments[p], Pending, Processing)
        case None => Become(w, i, Refused)
        case Some(row) => SetPayment(Become(w, i, Claimed), p, row)
      else w
    case Answer(i, accepted) =>
      if IsIn(w, i, Claimed) then Become(w, i, if accepted then Opened else Turned) else w
    case Store(i) =>
      if IsIn(w, i, Opened) then
        var p := w.attempts[i].payment;
        SetPayment(Become(w, i, Stored), p, w.payments[p].(reference := Some(w.attempts[i].reference)))
      else w
    case GiveBack(i) =>
      if IsIn(w, i, Turned) then
        var p := w.attempts[i].payment;
        match Swap(w.payments[p], Processing, Pending)
        case None => Become(w, i, GaveBack)
        case Some(row) => SetPayment(Become(w, i, GaveBack), p, row)
      else w
    case Settle(p, status) =>
      if IsPayment(w, p) && MaySettle(w.payments[p].status, status)
      then SetPayment(w, p, w.payments[p].(status := status)) else w
  }

  function After(steps: seq<Step>): World {
    if steps == [] then START else Next(After(steps[..|steps| - 1]), steps[|steps| - 1])
  }

  // --------------------------------------------------------------------------
  // What every state keeps
  // --------------------------------------------------------------------------

  /** Between its claim and giving it back; an attempt that opened a checkout keeps the claim for good. */
  predicate Holds(w: World, i: int) {
    0 <= i < |w.attempts| && w.attempts[i].phase in {Claimed, Opened, Stored, Turned}
  }

  predicate HoldsFor(w: World, i: int, p: int) {
    Holds(w, i) && w.attempts[i].payment == p
  }

  ghost predicate OneHolder(w: World) {
    forall i, j, p :: HoldsFor(w, i, p) && HoldsFor(w, j, p) ==> i == j
  }

  ghost predicate PendingIsFree(w: World) {
    forall i, p :: HoldsFor(w, i, p) ==> IsPayment(w, p) && w.payments[p].status != Pending
  }

  ghost predicate StoredIsOnFile(w: World) {
    forall i :: IsIn(w, i, Stored) ==> w.payments[w.attempts[i].payment].reference == Some(w.attempts[i].reference)
  }

  ghost predicate Inv(w: World) {
    && OneHolder(w) && PendingIsFree(w) && StoredIsOnFile(w)
    && forall i :: 0 <= i < |w.attempts| ==> IsPayment(w, w.attempts[i].payment)
  }

  lemma ClaimKeepsInv(w: World, i: int)
    requires Inv(w)
    ensures Inv(Next(w, Claim(i)))
  {
    var v := Next(w, Claim(i));
    forall j, p | HoldsFor(v, j, p) && j != i ensures HoldsFor(w, j, p) {
    }
    if IsIn(w, i, Ready) {
      assert forall j :: IsIn(v, j, Stored) ==> IsIn(w, j, Stored);
    }
  }

  lemma GiveBackKeepsInv(w: World, i: int)
    requires Inv(w)
    ensures Inv(Next(w, GiveBack(i)))
  {
    var v := Next(w, GiveBack(i));
    if IsIn(w, i, Turned) {
      assert HoldsFor(w, i, w.attempts[i].payment);
      forall j, p | HoldsFor(v, j, p) ensures HoldsFor(w, j, p) && p != w.attempts[i].payment {
        assert HoldsFor(w, j, p);
      }
      assert forall j :: IsIn(v, j, Stored) ==> IsIn(w, j, Stored);
    }
  }

  lemma StoreKeepsInv(w: World, i: int)
    requires Inv(w)
    ensures Inv(Next(w, Store(i)))
  {
    var v := Next(w, Store(i));
    if IsIn(w, i, Opened) {
      var p := w.attempts[i].payment;
      assert HoldsFor(w, i, p);
      forall j, q | HoldsFor(v, j, q) ensures HoldsFor(w, j, q) {
      }
      forall j | IsIn(v, j, Stored) && j != i ensures IsIn(w, j, Stored) && v.attempts[j].payment != p {
        assert HoldsFor(w, j, w.attempts[j].payment);
      }
    }
  }

  lemma OtherStepKeepsInv(w: World, step: Step)
    requires Inv(w) && (step.Create? || step.Begin? || step.Answer? || step.Settle?)
    ensures Inv(Next(w, step))
  {
    var v := Next(w, step);
    forall i, p | HoldsFor(v, i, p) ensures HoldsFor(w, i, p) {
    }
    assert forall i :: IsIn(v, i, Stored) ==> IsIn(w, i, Stored);
  }

  lemma {:induction false} RunsKeepInv(steps: seq<Step>)
    ensures Inv(After(steps))
  {
    if steps != [] {
      var w, step := After(steps[..|steps| - 1]), steps[|steps| - 1];
      RunsKeepInv(steps[..|steps| - 1]);
      match step {
        case Claim(i) => ClaimKeepsInv(w, i);
        case GiveBack(i) => GiveBackKeepsInv(w, i);
        case Store(i) => StoreKeepsInv(w, i);
        case _ => OtherStepKeepsInv(w, step);
      }
    }
  }

  // --------------------------------------------------------------------------
  // Single checkout
  // --------------------------------------------------------------------------

  predicate OpenedFor(w: World, i: int, p: int) {
    0 <= i < |w.attempts| && w.attempts[i].payment == p && w.attempts[i].phase in {Opened, Stored}
  }

  /** A pending payment has nothing in flight; one attempt at most holds the claim; one checkout at most is opened. */
  lemma {:induction false} SingleCheckout(steps: seq<Step>, p: int, i: int, j: int)
    requires IsPayment(After(steps), p)
    ensures var w := After(steps);
      && (w.payments[p].status == Pending ==> !HoldsFor(w, i, p))
      && (HoldsFor(w, i, p) && HoldsFor(w, j, p) ==> i == j)
      && (OpenedFor(w, i, p) && OpenedFor(w, j, p) ==> i == j)
      && (IsIn(w, i, Stored) && w.attempts[i].payment == p ==> w.payments[p].reference == Some(w.attempts[i].reference))
  {
    RunsKeepInv(steps);
    var w := After(steps);
    assert OpenedFor(w, i, p) ==> HoldsFor(w, i, p);
    assert OpenedFor(w, j, p) ==> HoldsFor(w, j, p);
  }

  /** A provider failure gives back only its own claim: a payment made pending again had no other holder. */
  lemma {:induction false} OnlyOwnClaimIsGivenBack(steps: seq<Step>, i: int, j: int, p: int)
    requires IsPayment(After(steps), p) && After(steps).payments[p].status != Pending
    requires Next(After(steps), GiveBack(i)).payments[p].status == Pending
    ensures HoldsFor(After(steps), i, p)
    ensures HoldsFor(After(steps), j, p) ==> j == i
  {
    RunsKeepInv(steps);
    assert HoldsFor(After(steps), i, p);
  }

  /** A payment leaves "pending" for good once a checkout has been opened for it. */
  lemma {:induction false} OpenedIsForGood(steps: seq<Step>, more: seq<Step>, i: int, p: int)
    requires OpenedFor(After(steps), i, p)
    ensures OpenedFor(After(steps + more), i, p)
    ensures IsPayment(After(steps + more), p) && After(steps + more).payments[p].status != Pending
  {
    if more == [] {
      assert steps + more == steps;
      RunsKeepInv(steps);
      assert HoldsFor(After(steps), i, p);
    } else {
      var prefix := steps + more[..|more| - 1];
      assert (steps + more)[..|steps + more| - 1] == prefix;
      OpenedIsForGood(steps, more[..|more| - 1], i, p);
      RunsKeepInv(steps + more);
      assert HoldsFor(After(steps + more), i, p);
    }
  }

  /** A refund is final, whatever runs afterwards. */
  lemma {:induction false} RefundIsFinal(steps: seq<Step>, more: seq<Step>, p: int)
    requires IsPayment(After(steps), p) && After(steps).payments[p].status == Refunded
    ensures IsPayment(After(steps + more), p) && After(steps + more).payments[p].status == Refunded
  {
    if more == [] {
      assert steps + more == steps;
    } else {
      RefundIsFinal(steps, more[..|more| - 1], p);
      assert (steps + more)[..|steps + more| - 1] == steps + more[..|more| - 1];
    }
  }

  /** The provider may settle a payment in any other way at any time. */
  lemma SettlesIff(w: World, p: int, status: Status)
    requires IsPayment(w, p)
    ensures var a := w.payments[p].status;
      Next(w, Settle(p, status)).payments[p] == w.payments[p].(status :=
        if status == Pending || (a == Refunded && status != Refunded) || (a == Paid && status in {Failed, Reconciling}) ||
           (a == Reconciling && status in {Processing, RefundPending}) then a else status)
  {
  }

  /** Claims succeed on pending payments only and give way to nobody; a claim given back leaves the payment pending. */
  lemma ClaimSucceedsIff(w: World, i: int)
    requires IsIn(w, i, Ready)
    ensures var p, v := w.attempts[i].payment, Next(w, Claim(i));
      if w.payments[p].status == Pending
      then v.attempts[i].phase == Claimed && v.payments[p] == w.payments[p].(status := Processing)
      else v.attempts[i].phase == Phase.Refused && v.payments == w.payments
  {
  }

  /** A claim given back makes a payment pending only if it is still processing. */
  lemma GivingBackReopens(w: World, i: int)
    requires IsIn(w, i, Turned)
    ensures var p, v := w.attempts[i].payment, Next(w, GiveBack(i));
      && v.attempts[i].phase == GaveBack
      && v.payments[p] == w.payments[p].(status := if w.payments[p].status == Processing then Pending else w.payments[p].status)
  {
  }

  // --------------------------------------------------------------------------
  // The handler, as it runs
  // --------------------------------------------------------------------------

  class Till {
    var payment: Payment

    constructor ()
      ensures payment == Payment(Pending, None)
    {
      payment := Payment(Pending, None);
    }

    method SwapStatus(from: Status, to: Status) returns (count: int)
      modifies this
      ensures count == if Swap(old(payment), from, to).Some? then 1 else 0
      ensures payment == if count == 1 then Swap(old(payment), from, to).value else old(payment)
    {
      count := 0;
      if payment.status == from {
        payment := payment.(status := to);
        count := 1;
      }
    }

    /** One attempt with nobody in between; `answer` is what the provider will say. */
    method Initialize(reference: int, answer: bool) returns (success: bool)
      modifies this
      ensures success == (old(payment).status == Pending && answer)
      ensures payment == if success then Payment(Processing, Some(reference)) else old(payment)
      ensures var w := World([old(payment)], []);
        var v := Next(Next(Next(Next(Next(w, Begin(0, reference)), Claim(0)), Answer(0, answer)), Store(0)), GiveBack(0));
        payment == v.payments[0]
    {
      success := false;
      if payment.status != Pending {
        return;
      }
      var processingClaim := SwapStatus(Pending, Processing);
      if processingClaim != 1 {
        return;
      }
      if !answer {
        var _ := SwapStatus(Processing, Pending);
        return;
      }
      payment := payment.(reference := Some(reference));
      success := true;
    }
  }
}
