/** Where the prices of the exchange come from: each was named in the run, and the agreed one taken by the other party. */
module AgreedPrices {
  import opened Money
  import opened PriceReviews

  /** A price in birr, to the nearest cent. */
  predicate IsNearestCent(cents: int, price: real) {
    cents as real - 0.5 <= price * 100.0 < cents as real + 0.5
  }

  /** The step that names the review's price: a proposal for a first review, a counter for an answer. */
  predicate Names(step: Step, r: Review) {
    if r.parent.None? then NamesFirst(step, r) else NamesCounter(step, r, r.parent.value)
  }

  predicate NamesFirst(step: Step, r: Review) {
    && step.ReadProposal? && step.proposer == r.proposer && step.cancelling == r.cancelling
    && if step.price.Some? then IsNearestCent(r.price, step.price.value) else r.cancelling
  }

  predicate NamesCounter(step: Step, r: Review, p: int) {
    && step.RunResponse? && step.who == r.proposer && step.review == p && step.answer.Counter?
    && step.answer.cancelling == Some(r.cancelling)
    && step.answer.price.Some? && IsNearestCent(r.price, step.answer.price.value)
  }

  predicate Takes(step: Step, i: int, who: Party) {
    step == RunResponse(who, i, Accept)
  }

  ghost predicate WasNamed(steps: seq<Step>, r: Review) {
    exists n :: 0 <= n < |steps| && Names(steps[n], r)
  }

  ghost predicate WasTaken(steps: seq<Step>, i: int, who: Party) {
    exists n :: 0 <= n < |steps| && Takes(steps[n], i, who)
  }

  /** The proposal was read at some step of the run. */
  ghost predicate WasProposed(steps: seq<Step>, p: Proposal) {
    exists n :: 0 <= n < |steps| && steps[n] == ReadProposal(p.proposer, p.price, p.cancelling)
  }

  ghost predicate ReviewNamed(steps: seq<Step>, r: Review, i: int) {
    WasNamed(steps, r) && (r.status == Accepted ==> WasTaken(steps, i, OtherParty(r.proposer)))
  }

  ghost predicate Named(steps: seq<Step>, s: Sys) {
    && (forall i :: 0 <= i < |s.order.reviews| ==> ReviewNamed(steps, s.order.reviews[i], i))
    && (forall i :: 0 <= i < |s.proposals| ==> WasProposed(steps, s.proposals[i]))
  }

  lemma ReviewNamedLonger(steps: seq<Step>, step: Step, r: Review, i: int)
    requires ReviewNamed(steps, r, i)
    ensures ReviewNamed(steps + [step], r, i)
  {
    var more := steps + [step];
    var n :| 0 <= n < |steps| && Names(steps[n], r);
    assert Names(more[n], r);
    if r.status == Accepted {
      var a :| 0 <= a < |steps| && Takes(steps[a], i, OtherParty(r.proposer));
      assert Takes(more[a], i, OtherParty(r.proposer));
    }
  }

  lemma ProposedLonger(steps: seq<Step>, step: Step, p: Proposal)
    requires WasProposed(steps, p)
    ensures WasProposed(steps + [step], p)
  {
    var n :| 0 <= n < |steps| && steps[n] == ReadProposal(p.proposer, p.price, p.cancelling);
    assert (steps + [step])[n] == steps[n];
  }

  lemma LongerRun(steps: seq<Step>, step: Step, s: Sys)
    requires Named(steps, s)
    ensures Named(steps + [step], s)
  {
    forall i | 0 <= i < |s.order.reviews| ensures ReviewNamed(steps + [step], s.order.reviews[i], i) {
      ReviewNamedLonger(steps, step, s.order.reviews[i], i);
    }
    forall i | 0 <= i < |s.proposals| ensures WasProposed(steps + [step], s.proposals[i]) {
      ProposedLonger(steps, step, s.proposals[i]);
    }
  }

  lemma ProposalIsNamed(steps: seq<Step>, p: Proposal, o: Order)
    requires WasProposed(steps, p) && (p.cancelling || p.price.Some?) && Commit(p, o).Done?
    ensures var b := Commit(p, o).order.reviews;
      |b| == |o.reviews| + 1 && b[..|o.reviews|] == o.reviews && ReviewNamed(steps, b[|o.reviews|], |o.reviews|)
  {
    var n :| 0 <= n < |steps| && steps[n] == ReadProposal(p.proposer, p.price, p.cancelling);
    assert Names(steps[n], Commit(p, o).order.reviews[|o.reviews|]);
  }

  /** An answer relabels the review it answers; only a counter adds one, which its own step names. */
  lemma ResponseIsNamed(d: Deal, steps: seq<Step>, n: int, o: Order, who: Party, i: int, answer: Answer)
    requires 0 <= n < |steps| && steps[n] == RunResponse(who, i, answer) && Respond(d, o, who, i, answer).Done?
    requires forall k :: 0 <= k < |o.reviews| ==> ReviewNamed(steps, o.reviews[k], k)
    ensures var b := Respond(d, o, who, i, answer).order.reviews; forall k :: 0 <= k < |b| ==> ReviewNamed(steps, b[k], k)
  {
    var b := Respond(d, o, who, i, answer).order.reviews;
    assert answer.Accept? ==> Takes(steps[n], i, OtherParty(o.reviews[i].proposer));
    forall k | 0 <= k < |b| ensures ReviewNamed(steps, b[k], k) {
      if k < |o.reviews| {
        assert ReviewNamed(steps, o.reviews[k], k);
        var m :| 0 <= m < |steps| && Names(steps[m], o.reviews[k]);
        assert Names(steps[m], b[k]);
      } else {
        assert Names(steps[n], b[k]);
      }
    }
  }

  lemma {:induction false} StepKeepsNamed(d: Deal, steps: seq<Step>, s: Sys, step: Step)
    requires Named(steps, s)
    ensures Named(steps + [step], Next(d, s, step))
  {
    var longer := steps + [step];
    LongerRun(steps, step, s);
    assert longer[|steps|] == step;
    match step
    case ReadProposal(_, _, _) =>
    case RunProposal(i) =>
      if 0 <= i < |s.proposals| && (s.proposals[i].cancelling || s.proposals[i].price.Some?) {
        if Commit(s.proposals[i], s.order).Done? {
          ProposalIsNamed(longer, s.proposals[i], s.order);
        }
      }
    case RunResponse(who, i, answer) =>
      if Respond(d, s.order, who, i, answer).Done? {
        ResponseIsNamed(d, longer, |steps|, s.order, who, i, answer);
      }
    case RunDecision(buy) =>
    case Elsewhere(_) =>
  }

  lemma {:induction false} RunsAreNamed(d: Deal, start: Order, steps: seq<Step>)
    requires start.reviews == []
    ensures Named(steps, After(d, start, steps))
  {
    if steps != [] {
      var before, step := steps[..|steps| - 1], steps[|steps| - 1];
      RunsAreNamed(d, start, before);
      StepKeepsNamed(d, before, After(d, start, before), step);
      assert before + [step] == steps;
    }
  }

  /**
   Nobody buys alone. In every run that has decided to buy, the order's price is that of a review which one party
   named, to the nearest cent, and which the other party accepted.
   */
  lemma {:induction false} BoughtPriceWasNamedAndTaken(d: Deal, start: Order, steps: seq<Step>)
    requires IsStart(d, start) && After(d, start, steps).order.decision == Buy
    ensures var o := After(d, start, steps).order;
      exists i :: IsAgreement(o.reviews, i) && o.reviews[i].price == o.finalPrice &&
        WasNamed(steps, o.reviews[i]) && WasTaken(steps, i, OtherParty(o.reviews[i].proposer))
  {
    AgreedPriceIsBilateral(d, start, steps);
    RunsAreNamed(d, start, steps);
    var o := After(d, start, steps).order;
    var i :| IsAgreement(o.reviews, i) && o.reviews[i].price == o.finalPrice;
    assert ReviewNamed(steps, o.reviews[i], i);
  }

  /** Every price on the table was named, to the nearest cent, by the party it is ascribed to. */
  lemma {:induction false} ReviewsWereNamed(d: Deal, start: Order, steps: seq<Step>, i: int)
    requires IsStart(d, start) && 0 <= i < |After(d, start, steps).order.reviews|
    ensures WasNamed(steps, After(d, start, steps).order.reviews[i])
  {
    RunsAreNamed(d, start, steps);
    assert ReviewNamed(steps, After(d, start, steps).order.reviews[i], i);
  }

  // --------------------------------------------------------------------------
  // It happens
  // --------------------------------------------------------------------------

  lemma AfterOne(d: Deal, start: Order, steps: seq<Step>, step: Step)
    ensures After(d, start, steps + [step]) == Next(d, After(d, start, steps), step)
  {
    assert (steps + [step])[..|steps|] == steps;
  }

  const GRAIN := Deal(true, Some(1.0), 10.0)
  const ORDERED := Order(Live, Undecided, 1500, [], false, false, false)

  /** The inspection is reported, the buyer asks for a lower price, the seller for one in between, and the buyer takes it. */
  const BARGAIN: seq<Step> := [
    Elsewhere(ReportChanges(true)), ReadProposal(Buyer, Some(12.0), false), RunProposal(0),
    RunResponse(Seller, 0, Counter(Some(13.5), Some(false))), RunResponse(Buyer, 1, Accept)]

  const ASKED := Review(Buyer, 1200, false, Pending, None)

  lemma PriceIsAsked()
    ensures After(GRAIN, ORDERED, BARGAIN[..3]).order == ORDERED.(reported := true, reviews := [ASKED])
  {
    var s1 := [BARGAIN[0]];
    var s2 := s1 + [BARGAIN[1]];
    assert [] + [BARGAIN[0]] == s1 && BARGAIN[..3] == s2 + [BARGAIN[2]];
    AfterOne(GRAIN, ORDERED, [], BARGAIN[0]);
    AfterOne(GRAIN, ORDERED, s1, BARGAIN[1]);
    AfterOne(GRAIN, ORDERED, s2, BARGAIN[2]);
    var reported := ORDERED.(reported := true);
    assert After(GRAIN, ORDERED, s1) == Sys(reported, []);
    var p := Proposal(Buyer, Some(12.0), false, reported);
    assert Cents(12.0) == 1200 && Admit(GRAIN, p) == None;
    assert After(GRAIN, ORDERED, s2) == Sys(reported, [p]);
  }

  lemma BargainIsStruck()
    ensures var o := After(GRAIN, ORDERED, BARGAIN).order;
      o.decision == Buy && o.finalPrice == 1350 && |o.reviews| == 2
  {
    PriceIsAsked();
    var s3 := BARGAIN[..3];
    var s4 := s3 + [BARGAIN[3]];
    assert BARGAIN == s4 + [BARGAIN[4]];
    AfterOne(GRAIN, ORDERED, s3, BARGAIN[3]);
    AfterOne(GRAIN, ORDERED, s4, BARGAIN[4]);
    assert Cents(13.5) == 1350;
    assert After(GRAIN, ORDERED, s4).order.reviews ==
      [ASKED.(status := Countered), Review(Seller, 1350, false, Pending, Some(0))];
  }
}
