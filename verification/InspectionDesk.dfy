/**
 The handlers as they run: each transaction checks and updates the rows one after another.
 Every method is proved to do what the specification of its transaction says.
 */
module InspectionDesk {
  import opened Money
  import opened InspectionQuotes
  import opened InspectionQuoteChains
  import InspectionQuoteRuns
  import InspectionAgreements
  import InspectionFees

  predicate ParentsPrecede(quotes: seq<Quote>) {
    forall i :: 0 <= i < |quotes| && quotes[i].parent.Some? ==> 0 <= quotes[i].parent.value < i
  }

  /** The depth loop may be called in every reachable state. */
  lemma ParentsPrecedeInEveryRun(steps: seq<Step>)
    ensures ParentsPrecede(After(steps).db.quotes)
  {
    InspectionQuoteRuns.RunsAreSound(steps);
    var quotes := After(steps).db.quotes;
    forall i | 0 <= i < |quotes| && quotes[i].parent.Some? ensures 0 <= quotes[i].parent.value < i {
      assert RowOk(quotes, i);
    }
  }

  lemma DepthBelow(quotes: seq<Quote>, i: int)
    requires 0 <= i < |quotes|
    ensures 0 <= Depth(quotes, i)
    decreases i
  {
  }

  /** countCounterDepth: walk up the parents, at most fifty rows. */
  method CountCounterDepth(quotes: seq<Quote>, leaf: int) returns (depth: int)
    requires 0 <= leaf < |quotes| && ParentsPrecede(quotes)
    ensures depth == CountedDepth(quotes, leaf)
  {
    depth := 0;
    var cursor := leaf;
    var safety := 0;
    while safety < 50
      invariant 0 <= cursor < |quotes| && depth == safety <= 50
      invariant depth + Depth(quotes, cursor) == Depth(quotes, leaf)
    {
      var row := quotes[cursor];
      if row.parent == None {
        return;
      }
      depth := depth + 1;
      cursor := row.parent.value;
      safety := safety + 1;
    }
    DepthBelow(quotes, cursor);
  }

  /** What a transaction answers, and what it leaves behind. */
  ghost predicate Runs(before: Db, call: Call, now: int, refused: Option<int>, after: Db)
    requires Addressed(call, before)
  {
    match Commit(call, before, now)
    case Committed(db) => refused == None && after == db
    case Refused(code) => refused == Some(code) && after == before
  }

  /** An admitted call addresses rows that are there: rows are only added. */
  lemma PendingCallsAreAddressed(steps: seq<Step>, i: int)
    requires 0 <= i < |After(steps).calls|
    ensures Addressed(After(steps).calls[i], After(steps).db)
  {
    InspectionQuoteRuns.RunsAreSound(steps);
    assert InspectionQuoteRuns.Admitted(After(steps).calls[i]);
  }

  lemma UndisturbedOneMore(steps: seq<Step>, step: Step)
    requires InspectionAgreements.AllUndisturbed(steps)
    requires InspectionAgreements.IsUndisturbed(After(steps), step)
    ensures InspectionAgreements.AllUndisturbed(steps + [step])
  {
    assert (steps + [step])[..|steps|] == steps;
  }

  /** The handlers of all requests. `log` is the run so far: the tables are always what its steps lead to. */
  class Desk {
    var requests: seq<Request>
    var quotes: seq<Quote>
    ghost var log: seq<Step>

    function Tables(): (db: Db)
      reads this
    {
      Db(requests, quotes)
    }

    ghost predicate Valid()
      reads this
    {
      Tables() == After(log).db
    }

    /** The call was admitted and its transaction has not run yet. */
    ghost predicate IsPending(i: int, call: Call)
      reads this
    {
      0 <= i < |After(log).calls| && After(log).calls[i] == call
    }

    constructor ()
      ensures Valid() && log == [] && Tables() == START.db
    {
      requests, quotes, log := [], [], [];
    }

    /** Note the step about to be taken. */
    ghost method Note(step: Step)
      modifies this`log
      ensures log == old(log) + [step]
      ensures After(log) == Next(After(old(log)), step)
    {
      InspectionAgreements.AfterOne(log, step);
      log := log + [step];
    }

    /** What the tables at the desk inherit from all its runs, however its calls interleaved. */
    lemma ChainsAreInOrder()
      requires Valid()
      ensures Chains(quotes) && ParentsPrecede(quotes)
      ensures forall i, j :: 0 <= i < |quotes| && 0 <= j < |quotes| && i != j && IsLiveLeaf(quotes, i) && IsLiveLeaf(quotes, j) ==>
        quotes[i].request != quotes[j].request
    {
      InspectionQuoteRuns.RunsAreSound(log);
      ParentsPrecedeInEveryRun(log);
      forall i, j | 0 <= i < |quotes| && 0 <= j < |quotes| && i != j && IsLiveLeaf(quotes, i) && IsLiveLeaf(quotes, j)
        ensures quotes[i].request != quotes[j].request
      {
        InspectionQuoteRuns.ChainsInEveryRun(log, i);
      }
    }

    /** And while every transaction met the missing guard, requests and accepted quotes agree. */
    lemma AgreementsAreInOrder()
      requires Valid() && InspectionAgreements.AllHarmless(log)
      ensures InspectionAgreements.Agreements(Tables())
    {
      InspectionAgreements.AgreementsInHarmlessRuns(log);
    }

    /** The checks on the first read; an admitted call waits for its transaction. */
    method Receive(action: Action, role: Role, user: int, request: int, quote: int, now: int)
      returns (refused: Option<int>, call: Call, ghost place: int)
      requires Valid()
      modifies this`log
      ensures call == Call(action, role, user, request, quote, Tables()) && refused == Admit(call, now)
      ensures Valid() && log == old(log) + [Read(action, role, user, request, quote, now)]
      ensures refused == None ==> IsPending(place, call)
    {
      Note(Read(action, role, user, request, quote, now));
      call := Call(action, role, user, request, quote, Tables());
      refused, place := Admit(call, now), |After(old(log)).calls|;
    }

    method UpdateStatus(i: int, status: QuoteStatus)
      requires 0 <= i < |quotes|
      modifies this`quotes
      ensures quotes == SetStatus(old(quotes), i, status)
    {
      quotes := quotes[i := quotes[i].(status := status)];
    }

    /** A request served without another in between: agreements hold after any number of these. */
    method Serve(action: Action, role: Role, user: int, request: int, quote: int, readAt: int, now: int)
      returns (refused: Option<int>)
      requires Valid() && InspectionAgreements.AllUndisturbed(log)
      modifies this
      ensures Valid() && InspectionAgreements.AllUndisturbed(log) && InspectionAgreements.Agreements(Tables())
      ensures var call := Call(action, role, user, request, quote, old(Tables()));
        if Admit(call, readAt).Some? then refused == Admit(call, readAt) && Tables() == old(Tables())
        else Addressed(call, old(Tables())) && Runs(old(Tables()), call, now, refused, Tables())
    {
      ghost var start := log;
      var call: Call;
      ghost var place: int;
      refused, call, place := Receive(action, role, user, request, quote, readAt);
      UndisturbedOneMore(start, log[|start|]);
      if refused == None {
        UndisturbedOneMore(log, Run(place, now));
        match action {
          case Submit(_, _) => refused := Submit(call, place, now);
          case Select => refused := Select(call, place, now);
          case Accept => refused := Accept(call, place, now);
          case Counter(_, _) => refused := Counter(call, place, now);
          case Reject => refused := Reject(call, place, now);
          case Withdraw(_, _, _) => refused := Withdraw(call, place, now);
          case WithdrawBid => refused := WithdrawBid(call, place, now);
        }
      }
      InspectionAgreements.UndisturbedRunsAreHarmless(log);
      AgreementsAreInOrder();
    }

    method Submit(call: Call, ghost place: int, now: int) returns (refused: Option<int>)
      requires Valid() && IsPending(place, call) && call.action.Submit?
      modifies this
      ensures Addressed(call, old(Tables())) && Runs(old(Tables()), call, now, refused, Tables())
      ensures Valid() && log == old(log) + [Run(place, now)]
      ensures refused == None ==> InspectionFees.AddsOne(old(Tables()), Tables(),
        Quote(call.request, call.user, call.action.bid, Pending, None, None, None, Some(call.action.bidExpiresAt)))
    {
      PendingCallsAreAddressed(log, place);
      Note(Run(place, now));
      if requests[call.request].orderClosed {
        return Some(409);
      }
      var created := Quote(call.request, call.user, call.action.bid, Pending, None, None, None,
                           Some(call.action.bidExpiresAt));
      quotes := quotes + [created];
      refused := None;
    }

    method Select(call: Call, ghost place: int, now: int) returns (refused: Option<int>)
      requires Valid() && IsPending(place, call) && call.action.Select?
      modifies this
      ensures Addressed(call, old(Tables())) && Runs(old(Tables()), call, now, refused, Tables())
      ensures Valid() && log == old(log) + [Run(place, now)]
    {
      PendingCallsAreAddressed(log, place);
      Note(Run(place, now));
      if !IsLeaf(quotes, call.quote) || quotes[call.quote].status != Pending {
        return Some(409);
      }
      if IsExpired(quotes[call.quote], now) {
        return Some(409);
      }
      if HasCompetitor(quotes, call.request, call.quote) {
        return Some(409);
      }
      var selected := quotes[call.quote];
      selected := selected.(status := Selected);
      selected := selected.(expiresAt := None);
      quotes := quotes[call.quote := selected];
      refused := None;
    }

    method Accept(call: Call, ghost place: int, now: int) returns (refused: Option<int>)
      requires Valid() && IsPending(place, call) && call.action.Accept?
      modifies this
      ensures Addressed(call, old(Tables())) && Runs(old(Tables()), call, now, refused, Tables())
      ensures Valid() && log == old(log) + [Run(place, now)]
    {
      PendingCallsAreAddressed(log, place);
      Note(Run(place, now));
      if requests[call.request].orderClosed {
        return Some(409);
      }
      if !IsLiveLeaf(quotes, call.quote) {
        return Some(409);
      }
      var finalAmount := FinalAmount(call.at.quotes[call.quote]);
      var claimed := Claim(call, quotes[call.quote].inspector, finalAmount);
      if !claimed {
        return Some(409);
      }
      var accepted := quotes[call.quote];
      accepted := accepted.(status := Accepted);
      accepted := accepted.(amount := finalAmount);
      quotes := quotes[call.quote := accepted];
      refused := None;
    }

    /** The guarded update that hands an open, unassigned request to one inspector. */
    method Claim(call: Call, inspector: int, fee: int) returns (claimed: bool)
      requires 0 <= call.request < |call.at.requests| <= |requests|
      modifies this`requests
      ensures var r := old(requests)[call.request];
        claimed == (r.status == Open && r.inspector == None)
      ensures var payer := call.at.requests[call.request].payer;
        requests == if !claimed then old(requests) else old(requests)[call.request :=
          old(requests)[call.request].(inspector := Some(inspector), terms := Some(AgreeTerms(payer, fee)),
                                       payer := payer, status := Agreed, confirmed := false)]
      ensures claimed ==>
        var t := requests[call.request].terms.value;
        t.fee == fee && AreSharesOf(call.at.requests[call.request].payer, fee, t.buyerFee, t.sellerFee)
    {
      SharesSumToFee(call.at.requests[call.request].payer, fee);
      var r := requests[call.request];
      if r.status != Open || r.inspector != None {
        return false;
      }
      var payer := call.at.requests[call.request].payer;
      var half := HalfUp(fee);
      var buyerFee := if payer == SellerPays then None else if payer == Split then Some(half) else Some(fee);
      var sellerFee := if payer == BuyerPays then None else if payer == Split then Some(fee - half) else Some(fee);
      r := r.(inspector := Some(inspector));
      r := r.(terms := Some(Terms(fee, payer, buyerFee, sellerFee)), payer := payer);
      r := r.(status := Agreed, confirmed := false);
      requests := requests[call.request := r];
      claimed := true;
    }

    method Counter(call: Call, ghost place: int, now: int) returns (refused: Option<int>)
      requires Valid() && IsPending(place, call) && call.action.Counter?
      modifies this
      ensures Addressed(call, old(Tables())) && Runs(old(Tables()), call, now, refused, Tables())
      ensures Valid() && log == old(log) + [Run(place, now)]
      ensures refused == None ==>
        var row := old(quotes)[call.quote];
        InspectionFees.AddsOne(old(Tables()), Tables(), Quote(row.request, row.inspector, call.action.offer, Countered,
          Some(call.quote), None, Some(call.role), Some(call.action.offerExpiresAt)))
    {
      PendingCallsAreAddressed(log, place);
      ChainsAreInOrder();
      Note(Run(place, now));
      if requests[call.request].orderClosed {
        return Some(409);
      }
      if !IsLiveLeaf(quotes, call.quote) {
        return Some(409);
      }
      if NotYourTurn(quotes[call.quote], call.role) {
        return Some(409);
      }
      if HasCompetitor(quotes, call.request, call.quote) {
        return Some(409);
      }
      var depth := CountCounterDepth(quotes, call.quote);
      if depth >= MAX_COUNTER_ROUNDS {
        return Some(409);
      }
      var row := quotes[call.quote];
      UpdateStatus(call.quote, Countered);
      quotes := quotes + [Quote(row.request, row.inspector, call.action.offer, Countered, Some(call.quote), None,
                                Some(call.role), Some(call.action.offerExpiresAt))];
      refused := None;
    }

    method Reject(call: Call, ghost place: int, now: int) returns (refused: Option<int>)
      requires Valid() && IsPending(place, call) && call.action.Reject?
      modifies this
      ensures Addressed(call, old(Tables())) && Runs(old(Tables()), call, now, refused, Tables())
      ensures Valid() && log == old(log) + [Run(place, now)]
    {
      PendingCallsAreAddressed(log, place);
      Note(Run(place, now));
      if requests[call.request].orderClosed {
        return Some(409);
      }
      if !IsLiveLeaf(quotes, call.quote) {
        return Some(409);
      }
      UpdateStatus(call.quote, Rejected);
      refused := None;
    }

    method Withdraw(call: Call, ghost place: int, now: int) returns (refused: Option<int>)
      requires Valid() && IsPending(place, call) && call.action.Withdraw?
      modifies this
      ensures Addressed(call, old(Tables())) && Runs(old(Tables()), call, now, refused, Tables())
      ensures Valid() && log == old(log) + [Run(place, now)]
    {
      PendingCallsAreAddressed(log, place);
      Note(Run(place, now));
      var isAcceptedRelease := call.at.quotes[call.quote].status == Accepted;
      var isProviderRelease := call.role == Provider;
      var r := requests[call.request];
      if r.orderClosed {
        return Some(409);
      }
      if !isProviderRelease && !call.action.allowed {
        return Some(409);
      }
      if r.paymentActive {
        return Some(409);
      }
      if !IsLeaf(quotes, call.quote) {
        return Some(409);
      }
      if isAcceptedRelease {
        if !isProviderRelease && !call.action.elapsed {
          return Some(409);
        }
        if r.status != Agreed || r.inspector != Some(quotes[call.quote].inspector) {
          return Some(409);
        }
      } else if ProviderIsSilent(quotes[call.quote]) && !call.action.elapsed {
        return Some(409);
      }
      UpdateStatus(call.quote, Withdrawn);
      if isAcceptedRelease {
        r := r.(inspector := None);
        r := r.(terms := None, locked := None);
        r := r.(confirmed := false, onSite := false);
        r := r.(status := Open);
        requests := requests[call.request := r];
      }
      refused := None;
    }

    method WithdrawBid(call: Call, ghost place: int, now: int) returns (refused: Option<int>)
      requires Valid() && IsPending(place, call) && call.action.WithdrawBid?
      modifies this
      ensures Addressed(call, old(Tables())) && Runs(old(Tables()), call, now, refused, Tables())
      ensures Valid() && log == old(log) + [Run(place, now)]
    {
      PendingCallsAreAddressed(log, place);
      Note(Run(place, now));
      if !IsLeaf(quotes, call.quote) || quotes[call.quote].status != Pending {
        return Some(409);
      }
      UpdateStatus(call.quote, Withdrawn);
      refused := None;
    }

    /** updateMany on the quotes of one request, one row after another. */
    method Close(request: int, inspector: Option<int>, from: set<QuoteStatus>, to: QuoteStatus)
      modifies this`quotes
      ensures quotes == CloseQuotes(old(quotes), request, inspector, from, to)
    {
      ghost var was := quotes;
      for i := 0 to |quotes|
        invariant |quotes| == |was|
        invariant forall j :: 0 <= j < i ==> quotes[j] == CloseQuote(was[j], request, inspector, from, to)
        invariant forall j :: i <= j < |was| ==> quotes[j] == was[j]
      {
        var q := quotes[i];
        if q.request == request && q.status in from && (inspector == None || inspector == Some(q.inspector)) {
          quotes := quotes[i := q.(status := to)];
        }
      }
    }

    /** The seller confirms the visit, which locks the agreed fee terms. */
    method SellerConfirm(k: int)
      requires Valid()
      modifies this
      ensures Tables() == Happen(old(Tables()), SellerConfirms(k))
      ensures Valid() && log == old(log) + [Elsewhere(SellerConfirms(k))]
      ensures Tables() != old(Tables()) ==>
        var r := requests[k];
        && r.confirmed && r.locked.Some? && r.terms.Some? && r.locked.value.fee == r.terms.value.fee
        && AreSharesOf(r.payer, r.locked.value.fee, r.locked.value.buyerFee, r.locked.value.sellerFee)
    {
      Note(Elsewhere(SellerConfirms(k)));
      if 0 <= k < |requests| {
        var r := requests[k];
        if !r.orderClosed && r.status == Agreed && r.inspector.Some? && !r.confirmed && !r.onSite &&
           r.terms.Some? && r.terms.value.fee > 0
        {
          var fee := r.terms.value.fee;
          SharesSumToFee(r.payer, fee);
          var buyerFee := if r.payer == SellerPays then None else if r.payer == Split then Some(HalfUp(fee)) else Some(fee);
          var sellerFee := if r.payer == BuyerPays then None else if r.payer == Split then Some(fee - HalfUp(fee)) else Some(fee);
          r := r.(confirmed := true);
          r := r.(locked := Some(Terms(fee, r.payer, buyerFee, sellerFee)));
          requests := requests[k := r];
        }
      }
    }

    /** The report and the move to completed are one transaction, which also turns the waiting bids away. */
    method SubmitReport(k: int)
      requires Valid()
      modifies this
      ensures Tables() == Happen(old(Tables()), Reports(k))
      ensures Valid() && log == old(log) + [Elsewhere(Reports(k))]
    {
      Note(Elsewhere(Reports(k)));
      if 0 <= k < |requests| {
        var r := requests[k];
        if !r.orderClosed && r.status == InProgress && r.confirmed && r.onSite {
          requests := requests[k := r.(status := Completed)];
          Close(k, None, {Pending}, Withdrawn);
        }
      }
    }

    method CancelInspection(k: int)
      requires Valid()
      modifies this
      ensures Tables() == Happen(old(Tables()), CancelRequest(k))
      ensures Valid() && log == old(log) + [Elsewhere(CancelRequest(k))]
    {
      Note(Elsewhere(CancelRequest(k)));
      if 0 <= k < |requests| {
        var r := requests[k];
        if !r.orderClosed && r.status != Completed && r.status != InProgress && !r.paymentActive {
          r := r.(inspector := None);
          r := r.(terms := None, locked := None);
          r := r.(status := Cancelled);
          requests := requests[k := r];
          Close(k, None, BIDDING, Expired);
        }
      }
    }
  }
}
