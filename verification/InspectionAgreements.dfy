/**
 While an inspection is agreed, the request and its accepted quote tell the same story. Handlers
 that are not disturbed between read and transaction keep it so; for a disturbed one it is said
 exactly when it does, and two runs show how it is lost.
 */
module InspectionAgreements {
  import opened Money
  import opened InspectionQuotes
  import opened InspectionQuoteChains
  import opened InspectionQuoteRuns

  /** The request has an inspector at work or about to be. */
  predicate Engaged(s: RequestStatus) {
    s == Agreed || s == InProgress || s == Stalled
  }

  predicate IsAccepted(db: Db, k: int, i: int) {
    0 <= i < |db.quotes| && db.quotes[i].request == k && db.quotes[i].status == Accepted
  }

  predicate Negotiates(db: Db, k: int, i: int) {
    IsLiveLeaf(db.quotes, i) && db.quotes[i].request == k
  }

  ghost predicate IsTheDeal(db: Db, k: int, i: int)
    requires Exists(db, k)
  {
    && IsAccepted(db, k, i)
    && db.requests[k].inspector == Some(db.quotes[i].inspector)
    && db.requests[k].terms.Some? && db.quotes[i].amount == db.requests[k].terms.value.fee
    && forall j :: IsAccepted(db, k, j) ==> j == i
  }

  ghost predicate TermsOk(r: Request) {
    && r.terms.Some? && r.terms.value == AgreeTerms(r.payer, r.terms.value.fee)
    && (r.confirmed ==> r.locked == r.terms)
    && (r.status == InProgress || r.status == Completed ==> r.confirmed)
  }

  ghost predicate RequestOk(db: Db, k: int)
    requires Exists(db, k)
  {
    var r := db.requests[k];
    && (r.status == Open ==> r.inspector == None && forall i :: !IsAccepted(db, k, i))
    && (Engaged(r.status) ==> (forall i :: !Negotiates(db, k, i)) && exists i :: IsTheDeal(db, k, i))
    && (Engaged(r.status) || r.status == Completed ==> TermsOk(r))
  }

  ghost predicate Agreements(db: Db) {
    && (forall k :: Exists(db, k) ==> RequestOk(db, k))
    && (forall i :: 0 <= i < |db.quotes| ==> Exists(db, db.quotes[i].request))
  }

  /**
   The guards a handler would have to make inside its transaction: a bid is not selected on an engaged
   request, a release of an agreement finds the quote still accepted, and a release of a silent
   inspector does not find it accepted by now.
   */
  predicate Harmless(c: Call, db: Db)
    requires Addressed(c, db)
  {
    match c.action
    case Select => !Engaged(db.requests[c.request].status)
    case Withdraw(_, _, _) =>
      if c.at.quotes[c.quote].status == Accepted then db.quotes[c.quote].status == Accepted
      else db.quotes[c.quote].status == Accepted ==> !Engaged(db.requests[c.request].status)
    case _ => true
  }

  // --------------------------------------------------------------------------
  // Frames
  // --------------------------------------------------------------------------

  /** Nothing about request k is different in b. */
  ghost predicate Untouched(a: Db, b: Db, k: int) {
    && |a.quotes| <= |b.quotes|
    && Exists(a, k) && Exists(b, k) && a.requests[k] == b.requests[k]
    && (forall i :: IsAccepted(a, k, i) <==> IsAccepted(b, k, i))
    && (forall i :: Negotiates(b, k, i) ==> Negotiates(a, k, i))
    && (forall i :: IsAccepted(a, k, i) ==> a.quotes[i] == b.quotes[i])
  }

  lemma UntouchedStaysOk(a: Db, b: Db, k: int)
    requires Untouched(a, b, k) && RequestOk(a, k)
    ensures RequestOk(b, k)
  {
    if Engaged(a.requests[k].status) {
      var i :| IsTheDeal(a, k, i);
      assert IsTheDeal(b, k, i);
    }
  }

  /** A transaction on one request leaves the others alone. */
  lemma {:induction false} OthersAreUntouched(c: Call, db: Db, now: int, k: int)
    requires Chains(db.quotes) && Agreements(db)
    requires Addressed(c, db) && Commit(c, db, now).Committed? && Exists(db, k) && k != c.request
    requires !c.action.Submit? ==> db.quotes[c.quote].request == c.request
    ensures Untouched(db, Commit(c, db, now).db, k)
  {
    var b := Commit(c, db, now).db;
    assert SameLinks(db.quotes, b.quotes);
    forall i ensures Negotiates(b, k, i) ==> Negotiates(db, k, i) {
      ChildrenKept(db.quotes, b.quotes, i);
    }
  }

  // --------------------------------------------------------------------------
  // Exactly when a transaction keeps the agreements
  // --------------------------------------------------------------------------

  lemma LeavesStayLeaves(a: seq<Quote>, b: seq<Quote>, i: int)
    requires |a| == |b| && SameLinks(a, b)
    ensures IsLeaf(a, i) <==> IsLeaf(b, i)
  {
    ChildrenKept(a, b, i);
  }

  lemma AcceptMakesTheDeal(c: Call, db: Db, now: int)
    requires Chains(db.quotes) && Agreements(db) && Evolves(c.at, db)
    requires c.action.Accept? && Addressed(c, db) && Commit(c, db, now).Committed?
    ensures RequestOk(Commit(c, db, now).db, c.request)
  {
    var b := Commit(c, db, now).db;
    QuoteStaysWithItsRequest(c, db);
    assert RequestOk(db, c.request);
    assert forall i :: !IsAccepted(db, c.request, i);
    assert Negotiates(db, c.request, c.quote);
    forall i ensures !Negotiates(b, c.request, i) {
      LeavesStayLeaves(db.quotes, b.quotes, i);
      assert Negotiates(b, c.request, i) ==> Negotiates(db, c.request, i);
    }
    forall j | IsAccepted(b, c.request, j) ensures j == c.quote {
      assert j != c.quote ==> IsAccepted(db, c.request, j);
    }
    assert IsTheDeal(b, c.request, c.quote);
  }

  lemma SelectKeepsOkIff(c: Call, db: Db, now: int)
    requires Chains(db.quotes) && Agreements(db) && Evolves(c.at, db)
    requires c.action.Select? && Addressed(c, db) && Commit(c, db, now).Committed?
    ensures RequestOk(Commit(c, db, now).db, c.request) <==> Harmless(c, db)
  {
    var b := Commit(c, db, now).db;
    QuoteStaysWithItsRequest(c, db);
    assert RequestOk(db, c.request);
    LeavesStayLeaves(db.quotes, b.quotes, c.quote);
    assert Negotiates(b, c.request, c.quote);
    assert forall i :: IsAccepted(b, c.request, i) <==> IsAccepted(db, c.request, i);
  }

  /** Closing a row that is not accepted changes nothing an agreement speaks of. */
  lemma ClosingARowIsUntouched(db: Db, i: int, to: QuoteStatus)
    requires 0 <= i < |db.quotes| && IsClosed(to) && Exists(db, db.quotes[i].request)
    requires db.quotes[i].status != Accepted
    ensures Untouched(db, db.(quotes := SetStatus(db.quotes, i, to)), db.quotes[i].request)
  {
    var b := db.(quotes := SetStatus(db.quotes, i, to));
    forall j ensures Negotiates(b, db.quotes[i].request, j) ==> Negotiates(db, db.quotes[i].request, j) {
      LeavesStayLeaves(db.quotes, b.quotes, j);
    }
  }

  lemma WithdrawKeepsOkIff(c: Call, db: Db, now: int)
    requires Chains(db.quotes) && Agreements(db) && Evolves(c.at, db)
    requires c.action.Withdraw? && Addressed(c, db) && Commit(c, db, now).Committed?
    ensures RequestOk(Commit(c, db, now).db, c.request) <==> Harmless(c, db)
  {
    var b := Commit(c, db, now).db;
    QuoteStaysWithItsRequest(c, db);
    assert RequestOk(db, c.request);
    var k, row := c.request, db.quotes[c.quote];
    if c.at.quotes[c.quote].status == Accepted {
      var deal :| IsTheDeal(db, k, deal);
      if row.status == Accepted {
        assert deal == c.quote by { assert IsAccepted(db, k, c.quote); }
        forall i ensures !IsAccepted(b, k, i) {
          assert IsAccepted(b, k, i) ==> IsAccepted(db, k, i);
        }
      } else {
        assert IsAccepted(b, k, deal);
      }
    } else if row.status != Accepted {
      ClosingARowIsUntouched(db, c.quote, Withdrawn);
      UntouchedStaysOk(db, b, k);
    } else {
      forall i | IsAccepted(b, k, i) ensures IsAccepted(db, k, i) && i != c.quote {
      }
      if Engaged(db.requests[k].status) {
        assert IsAccepted(db, k, c.quote);
        assert forall i :: !IsAccepted(b, k, i);
      }
    }
  }

  lemma BargainingLeavesOk(c: Call, db: Db, now: int)
    requires Chains(db.quotes) && Agreements(db) && Evolves(c.at, db)
    requires c.action.Submit? || c.action.Counter? || c.action.Reject? || c.action.WithdrawBid?
    requires Addressed(c, db) && Commit(c, db, now).Committed?
    ensures RequestOk(Commit(c, db, now).db, c.request)
  {
    var b := Commit(c, db, now).db;
    assert RequestOk(db, c.request);
    if c.action.Submit? {
      SubmittingIsUntouched(c, db, b.quotes[|db.quotes|]);
      UntouchedStaysOk(db, b, c.request);
    } else {
      QuoteStaysWithItsRequest(c, db);
      if c.action.Counter? {
        assert Negotiates(db, c.request, c.quote);
        assert forall i :: IsAccepted(b, c.request, i) <==> IsAccepted(db, c.request, i);
      } else {
        ClosingARowIsUntouched(db, c.quote, b.quotes[c.quote].status);
        UntouchedStaysOk(db, b, c.request);
      }
    }
  }

  lemma SubmittingIsUntouched(c: Call, db: Db, q: Quote)
    requires Exists(db, c.request) && q.status == Pending
    ensures Untouched(db, db.(quotes := db.quotes + [q]), c.request)
  {
    var b := db.(quotes := db.quotes + [q]);
    forall i | Negotiates(b, c.request, i) ensures Negotiates(db, c.request, i) {
      AppendedChild(db.quotes, q, i);
    }
  }

  /**
   However stale its read, a transaction keeps every agreement exactly when the missing guard holds.
   Only select and the two kinds of release can fail it.
   */
  lemma AgreementsKeptIff(c: Call, db: Db, now: int)
    requires Chains(db.quotes) && Agreements(db) && Evolves(c.at, db)
    requires Addressed(c, db) && Commit(c, db, now).Committed?
    ensures Agreements(Commit(c, db, now).db) <==> Harmless(c, db)
  {
    var b := Commit(c, db, now).db;
    if !c.action.Submit? {
      QuoteStaysWithItsRequest(c, db);
    }
    match c.action {
      case Accept => AcceptMakesTheDeal(c, db, now);
      case Select => SelectKeepsOkIff(c, db, now);
      case Withdraw(_, _, _) => WithdrawKeepsOkIff(c, db, now);
      case _ => BargainingLeavesOk(c, db, now);
    }
    if Harmless(c, db) {
      forall k | Exists(b, k) ensures RequestOk(b, k) {
        if k != c.request {
          OthersAreUntouched(c, db, now, k);
          UntouchedStaysOk(db, b, k);
        }
      }
      forall i | 0 <= i < |b.quotes| ensures Exists(b, b.quotes[i].request) {
        assert i < |db.quotes| ==> Exists(db, db.quotes[i].request);
      }
    } else {
      assert Exists(b, c.request) && !RequestOk(b, c.request);
    }
  }

  /** A handler whose own two rows nobody changed since it read them is harmless. */
  lemma UndisturbedIsHarmless(c: Call, db: Db, readAt: int)
    requires Addressed(c, db) && Admit(c, readAt) == None
    requires c.at.requests[c.request] == db.requests[c.request]
    requires !c.action.Submit? ==> c.at.quotes[c.quote] == db.quotes[c.quote]
    ensures Harmless(c, db)
  {
  }

  // --------------------------------------------------------------------------
  // The rest of the request's life
  // --------------------------------------------------------------------------

  lemma EventLeavesOthers(db: Db, e: Event, k: int)
    requires Chains(db.quotes) && Agreements(db) && Exists(db, k)
    requires e.CreateRequest? || k != e.on
    ensures Untouched(db, Happen(db, e), k)
  {
    var b := Happen(db, e);
    EventLeavesOtherRows(db, e, k);
    forall i ensures Negotiates(b, k, i) ==> Negotiates(db, k, i) {
      LeavesStayLeaves(db.quotes, b.quotes, i);
    }
  }

  lemma EventLeavesOtherRows(db: Db, e: Event, k: int)
    requires Exists(db, k) && (e.CreateRequest? || k != e.on)
    ensures var b := Happen(db, e);
      && Exists(b, k) && b.requests[k] == db.requests[k]
      && |b.quotes| == |db.quotes| && SameLinks(db.quotes, b.quotes)
      && forall i :: 0 <= i < |db.quotes| && db.quotes[i].request == k ==> b.quotes[i] == db.quotes[i]
  {
  }

  lemma EventKeepsItsRequest(db: Db, e: Event)
    requires Chains(db.quotes) && Agreements(db) && !e.CreateRequest? && Exists(db, e.on)
    ensures RequestOk(Happen(db, e), e.on)
  {
    var b, k := Happen(db, e), e.on;
    var r := db.requests[k];
    assert RequestOk(db, k);
    forall i ensures Negotiates(b, k, i) ==> Negotiates(db, k, i) {
      LeavesStayLeaves(db.quotes, b.quotes, i);
    }
    forall i ensures IsAccepted(b, k, i) ==> IsAccepted(db, k, i) {
    }
    if Engaged(r.status) {
      var deal :| IsTheDeal(db, k, deal);
      if Engaged(b.requests[k].status) {
        assert IsTheDeal(b, k, deal);
      }
    }
  }

  lemma EventKeepsAgreements(db: Db, e: Event)
    requires Chains(db.quotes) && Agreements(db)
    ensures Agreements(Happen(db, e))
  {
    var b := Happen(db, e);
    forall k | Exists(b, k) ensures RequestOk(b, k) {
      if !e.CreateRequest? && k == e.on {
        EventKeepsItsRequest(db, e);
      } else if Exists(db, k) {
        EventLeavesOthers(db, e, k);
        UntouchedStaysOk(db, b, k);
      } else {
        forall i ensures !IsAccepted(b, k, i) {
          assert 0 <= i < |db.quotes| ==> Exists(db, db.quotes[i].request);
        }
      }
    }
    forall i | 0 <= i < |b.quotes| ensures Exists(b, b.quotes[i].request) {
      assert Exists(db, db.quotes[i].request);
    }
  }

  // --------------------------------------------------------------------------
  // Whole runs
  // --------------------------------------------------------------------------

  ghost predicate IsHarmlessStep(s: Sys, step: Step) {
    Commits(s, step) ==> Harmless(s.calls[step.call], s.db)
  }

  ghost predicate AllHarmless(steps: seq<Step>) {
    steps == [] ||
    (AllHarmless(steps[..|steps| - 1]) && IsHarmlessStep(After(steps[..|steps| - 1]), steps[|steps| - 1]))
  }

  /** The rows a committing handler had read are still as it read them. */
  ghost predicate IsUndisturbed(s: Sys, step: Step) {
    Commits(s, step) ==>
      var c := s.calls[step.call];
      && c.at.requests[c.request] == s.db.requests[c.request]
      && (!c.action.Submit? ==> c.at.quotes[c.quote] == s.db.quotes[c.quote])
  }

  ghost predicate AllUndisturbed(steps: seq<Step>) {
    steps == [] ||
    (AllUndisturbed(steps[..|steps| - 1]) && IsUndisturbed(After(steps[..|steps| - 1]), steps[|steps| - 1]))
  }

  lemma {:induction false} StepKeepsAgreements(s: Sys, step: Step)
    requires Sound(s) && Agreements(s.db) && IsHarmlessStep(s, step)
    ensures Agreements(Next(s, step).db)
  {
    match step
    case Read(_, _, _, _, _, _) =>
    case Elsewhere(e) => EventKeepsAgreements(s.db, e);
    case Run(i, now) =>
      if Commits(s, step) {
        AgreementsKeptIff(s.calls[i], s.db, now);
      }
  }

  lemma {:induction false} AgreementsInHarmlessRuns(steps: seq<Step>)
    requires AllHarmless(steps)
    ensures Agreements(After(steps).db)
  {
    if steps != [] {
      var before := steps[..|steps| - 1];
      AgreementsInHarmlessRuns(before);
      RunsAreSound(before);
      StepKeepsAgreements(After(before), steps[|steps| - 1]);
    }
  }

  lemma {:induction false} UndisturbedRunsAreHarmless(steps: seq<Step>)
    requires AllUndisturbed(steps)
    ensures AllHarmless(steps)
  {
    if steps != [] {
      var before, step := steps[..|steps| - 1], steps[|steps| - 1];
      UndisturbedRunsAreHarmless(before);
      RunsAreSound(before);
      if Commits(After(before), step) {
        var c := After(before).calls[step.call];
        assert Admitted(c);
        var readAt :| Admit(c, readAt) == None;
        UndisturbedIsHarmless(c, After(before).db, readAt);
      }
    }
  }

  /**
   Agreement consistency. If no handler is disturbed between read and transaction (atomic handlers
   are the special case), an accepted request has no live leaf, exactly one accepted quote, that of its
   inspector for the agreed fee, shares that make up the fee and are billed to its payer, and locked terms
   equal to the agreed ones.
   */
  lemma {:induction false} AgreedRequestsAreConsistent(steps: seq<Step>, k: int)
    requires AllUndisturbed(steps) && Exists(After(steps).db, k)
    requires After(steps).db.requests[k].status == Agreed
    ensures var db := After(steps).db;
      var r := db.requests[k];
      && (forall i :: !Negotiates(db, k, i))
      && (exists i :: IsTheDeal(db, k, i))
      && r.terms.Some? && r.terms.value.payer == r.payer
      && AreSharesOf(r.payer, r.terms.value.fee, r.terms.value.buyerFee, r.terms.value.sellerFee)
      && OrZero(r.terms.value.buyerFee) + OrZero(r.terms.value.sellerFee) == r.terms.value.fee
      && (r.confirmed ==> r.locked == r.terms)
  {
    UndisturbedRunsAreHarmless(steps);
    AgreementsInHarmlessRuns(steps);
    assert RequestOk(After(steps).db, k);
    SharesSumToFee(After(steps).db.requests[k].payer, After(steps).db.requests[k].terms.value.fee);
  }

  // --------------------------------------------------------------------------
  // Two runs that lose the agreement
  // --------------------------------------------------------------------------

  const BUYER := 1
  const INSPECTOR := 2
  const RIVAL := 3

  /** A request with one bid, selected. */
  const SELECTED_BID: seq<Step> := [
    Elsewhere(CreateRequest(BuyerPays)),
    Read(Submit(5000, 100), Provider, INSPECTOR, 0, -1, 0), Run(0, 0),
    Read(Select, Requester, BUYER, 0, 0, 1), Run(0, 1)
  ]

  /** The requester releases a silent inspector; between read and transaction the inspector's price is accepted. */
  const LATE_RELEASE: seq<Step> := SELECTED_BID + [
    Read(Withdraw(true, true, true), Requester, BUYER, 0, 0, 2),
    Read(Accept, Requester, BUYER, 0, 0, 2), Run(1, 3),
    Run(0, 4)
  ]

  lemma AfterOne(steps: seq<Step>, step: Step)
    ensures After(steps + [step]) == Next(After(steps), step)
  {
    assert (steps + [step])[..|steps|] == steps;
  }

  const BID0 := Quote(0, INSPECTOR, 5000, Pending, None, None, None, Some(100))
  const BLANK := Request(Open, BuyerPays, None, None, false, false, None, false, false)
  const DEAL0 := BLANK.(inspector := Some(INSPECTOR), terms := Some(AgreeTerms(BuyerPays, 5000)), status := Agreed)
  const CHOSEN0 := BID0.(status := Selected, expiresAt := None)

  lemma SelectedBid()
    ensures After(SELECTED_BID).db == Db([BLANK], [CHOSEN0]) && After(SELECTED_BID).calls == []
  {
    var s1 := [SELECTED_BID[0]];
    var s2, s3 := s1 + [SELECTED_BID[1]], s1 + [SELECTED_BID[1]] + [SELECTED_BID[2]];
    var s4 := s3 + [SELECTED_BID[3]];
    assert SELECTED_BID == s4 + [SELECTED_BID[4]];
    AfterOne([], SELECTED_BID[0]);
    AfterOne(s1, SELECTED_BID[1]);
    AfterOne(s2, SELECTED_BID[2]);
    AfterOne(s3, SELECTED_BID[3]);
    AfterOne(s4, SELECTED_BID[4]);
    assert [] + [SELECTED_BID[0]] == s1;
    assert After(s1).db == Db([BLANK], []);
    assert After(s3).db == Db([BLANK], [BID0]);
    assert IsLeaf([BID0], 0) && !HasCompetitor([BID0], 0, 0);
  }

  const AGREED_RUN: seq<Step> := SELECTED_BID + [
    Read(Withdraw(true, true, true), Requester, BUYER, 0, 0, 2),
    Read(Accept, Requester, BUYER, 0, 0, 2), Run(1, 3)]

  const DEAL_QUOTE := CHOSEN0.(status := Accepted)

  lemma AgreedRun()
    ensures After(AGREED_RUN).db == Db([DEAL0], [DEAL_QUOTE])
    ensures After(AGREED_RUN).calls == [Call(Withdraw(true, true, true), Requester, BUYER, 0, 0, Db([BLANK], [CHOSEN0]))]
  {
    SelectedBid();
    var s2 := SELECTED_BID + [AGREED_RUN[5]];
    var s3 := s2 + [AGREED_RUN[6]];
    assert AGREED_RUN == s3 + [AGREED_RUN[7]];
    AfterOne(SELECTED_BID, AGREED_RUN[5]);
    AfterOne(s2, AGREED_RUN[6]);
    AfterOne(s3, AGREED_RUN[7]);
    assert IsLeaf([CHOSEN0], 0);
  }

  /** A release that checked a selected row may withdraw an accepted one: an agreement without its quote. */
  lemma LateReleaseLosesTheQuote()
    ensures var db := After(LATE_RELEASE).db;
      && |db.requests| == 1 && |db.quotes| == 1
      && db.requests[0].status == Agreed && db.requests[0].inspector == Some(INSPECTOR)
      && db.quotes[0].status == Withdrawn && !Agreements(db)
  {
    AgreedRun();
    assert LATE_RELEASE == AGREED_RUN + [Run(0, 4)];
    AfterOne(AGREED_RUN, Run(0, 4));
    assert IsLeaf([DEAL_QUOTE], 0);
    var db := Db([DEAL0], [DEAL_QUOTE.(status := Withdrawn)]);
    var late := Call(Withdraw(true, true, true), Requester, BUYER, 0, 0, Db([BLANK], [CHOSEN0]));
    assert Commit(late, Db([DEAL0], [DEAL_QUOTE]), 4) == Committed(db);
    assert After(LATE_RELEASE).db == db;
    assert forall i :: !IsAccepted(db, 0, i);
    assert Exists(db, 0) && !RequestOk(db, 0);
  }

  const BID1 := Quote(0, RIVAL, 4000, Pending, None, None, None, Some(100))

  const RIVAL_RUN: seq<Step> := SELECTED_BID + [
    Read(Submit(4000, 100), Provider, RIVAL, 0, -1, 2), Run(0, 2),
    Read(Select, Requester, BUYER, 0, 1, 2)]

  lemma RivalRun()
    ensures After(RIVAL_RUN).db == Db([BLANK], [CHOSEN0, BID1])
    ensures After(RIVAL_RUN).calls == [Call(Select, Requester, BUYER, 0, 1, Db([BLANK], [CHOSEN0, BID1]))]
  {
    SelectedBid();
    var s2 := SELECTED_BID + [RIVAL_RUN[5]];
    var s3 := s2 + [RIVAL_RUN[6]];
    assert RIVAL_RUN == s3 + [RIVAL_RUN[7]];
    AfterOne(SELECTED_BID, RIVAL_RUN[5]);
    AfterOne(s2, RIVAL_RUN[6]);
    AfterOne(s3, RIVAL_RUN[7]);
    assert After(s3).db == Db([BLANK], [CHOSEN0, BID1]);
  }

  /** A second bid is read for selection while the request is open and selected after the agreement. */
  const LATE_SELECT: seq<Step> := RIVAL_RUN + [Read(Accept, Requester, BUYER, 0, 0, 2), Run(1, 3), Run(0, 4)]

  const AGREED_OVER_RIVAL := Db([DEAL0], [DEAL_QUOTE, BID1])

  lemma AgreedOverRival()
    ensures After(RIVAL_RUN + [Read(Accept, Requester, BUYER, 0, 0, 2)] + [Run(1, 3)]) ==
      Sys(AGREED_OVER_RIVAL, [Call(Select, Requester, BUYER, 0, 1, Db([BLANK], [CHOSEN0, BID1]))])
  {
    RivalRun();
    var s5 := RIVAL_RUN + [Read(Accept, Requester, BUYER, 0, 0, 2)];
    AfterOne(RIVAL_RUN, Read(Accept, Requester, BUYER, 0, 0, 2));
    AfterOne(s5, Run(1, 3));
    var db := Db([BLANK], [CHOSEN0, BID1]);
    var c := Call(Accept, Requester, BUYER, 0, 0, db);
    assert IsLeaf(db.quotes, 0);
    assert After(s5).db == db && After(s5).calls[1] == c && |After(s5).calls| == 2;
    assert Commit(c, db, 3) == Committed(AGREED_OVER_RIVAL);
  }

  /** Selecting never looks at the request again: an agreed request with a live negotiation. */
  lemma LateSelectReopensBargaining()
    ensures var db := After(LATE_SELECT).db;
      && |db.requests| == 1 && |db.quotes| == 2
      && db.requests[0].status == Agreed && db.quotes[0].status == Accepted
      && Negotiates(db, 0, 1) && !Agreements(db)
  {
    AgreedOverRival();
    var s6 := RIVAL_RUN + [Read(Accept, Requester, BUYER, 0, 0, 2)] + [Run(1, 3)];
    assert LATE_SELECT == s6 + [Run(0, 4)];
    AfterOne(s6, Run(0, 4));
    var quotes := AGREED_OVER_RIVAL.quotes;
    assert IsLeaf(quotes, 1) && !HasCompetitor(quotes, 0, 1);
    var after := Db([DEAL0], [DEAL_QUOTE, BID1.(status := Selected, expiresAt := None)]);
    var late := Call(Select, Requester, BUYER, 0, 1, Db([BLANK], [CHOSEN0, BID1]));
    assert Commit(late, AGREED_OVER_RIVAL, 4) == Committed(after);
    assert After(LATE_SELECT).db == after;
    assert IsLeaf(after.quotes, 1);
    assert Negotiates(after, 0, 1);
    assert Exists(after, 0) && !RequestOk(after, 0);
  }
}
