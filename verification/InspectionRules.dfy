/**
 Who may do what in a negotiation, and what it leaves behind, as one table: the checks of the first read, those of
 the transaction, and the one or two rows that change. The handlers follow the table exactly.
 */
module InspectionRules {
  import opened Money
  import opened InspectionQuotes
  import opened InspectionQuoteChains
  import InspectionQuoteRuns

  // --------------------------------------------------------------------------
  // The first read
  // --------------------------------------------------------------------------

  predicate RequestIsThere(c: Call) {
    0 <= c.request < |c.at.requests|
  }

  predicate QuoteIsThere(c: Call) {
    c.action.Submit? || (0 <= c.quote < |c.at.quotes| && c.at.quotes[c.quote].request == c.request)
  }

  /** An inspector speaks for his own quotes only, and some steps belong to one side. */
  predicate HasRight(c: Call)
    requires RequestIsThere(c) && QuoteIsThere(c)
  {
    c.action.Submit? ||
    var q := c.at.quotes[c.quote];
    if c.role == Provider then
      q.inspector == c.user && !c.action.Select? && (c.action.Withdraw? ==> q.status == Accepted)
    else !c.action.WithdrawBid?
  }

  /** The provider answers the requester's counters, the requester whatever else is in negotiation. */
  predicate Answers(q: Quote, role: Role) {
    match q.status
    case Selected => role == Requester
    case Countered => role == Provider <==> q.counteredBy == Some(Requester)
    case _ => false
  }

  predicate InTime(q: Quote, now: int) {
    q.expiresAt.Some? ==> now < q.expiresAt.value
  }

  /** A bid or an agreement of this inspector that nothing has followed or ended. */
  predicate IsStanding(quotes: seq<Quote>, j: int, request: int, inspector: int) {
    IsLeaf(quotes, j) && quotes[j].request == request && quotes[j].inspector == inspector &&
    !IsClosed(quotes[j].status)
  }

  /** The stage at which the step makes sense at all. */
  predicate IsRightStage(c: Call)
    requires RequestIsThere(c) && QuoteIsThere(c)
  {
    var r := c.at.requests[c.request];
    if c.action.Submit? then r.status !in {Completed, Cancelled}
    else
      var q := c.at.quotes[c.quote];
      match c.action
      case Select => r.status == Open && q.status == Pending
      case Accept => r.status == Open && IsLive(q)
      case Counter(_, _) => r.status == Open && IsLive(q)
      case Reject => IsLive(q) || q.status == Pending
      case Withdraw(_, _, _) => q.status == Accepted || q.status == Selected || (q.status == Countered && Answers(q, Provider))
      case _ => true
  }

  /** Turn, deadline, waiting window, and one standing bid for each inspector. */
  predicate IsDue(c: Call, now: int)
    requires RequestIsThere(c) && QuoteIsThere(c)
  {
    if c.action.Submit? then !exists j :: 0 <= j < |c.at.quotes| && IsStanding(c.at.quotes, j, c.request, c.user)
    else
      var q := c.at.quotes[c.quote];
      match c.action
      case Select => InTime(q, now)
      case Accept => InTime(q, now) && Answers(q, c.role)
      case Counter(_, _) => InTime(q, now) && Answers(q, c.role)
      case Reject => Answers(q, c.role)
      case Withdraw(elapsedAtRead, _, _) => c.role == Requester ==> elapsedAtRead
      case _ => q.status == Pending
  }

  predicate IsFrozen(c: Call)
    requires RequestIsThere(c)
  {
    !c.action.Submit? && c.at.requests[c.request].orderClosed
  }

  lemma StandingIsActive(quotes: seq<Quote>, request: int, inspector: int)
    ensures HasActiveBid(quotes, request, inspector) <==>
      exists j :: 0 <= j < |quotes| && IsStanding(quotes, j, request, inspector)
  {
    if HasActiveBid(quotes, request, inspector) {
      var j :| 0 <= j < |quotes| && quotes[j].request == request && quotes[j].inspector == inspector &&
        IsLeaf(quotes, j) && quotes[j].status in {Pending, Selected, Countered, Accepted};
      assert IsStanding(quotes, j, request, inspector);
    }
  }

  /** A call is admitted precisely when its rows are there, not frozen, and right, stage and turn allow it. */
  lemma AdmittedIff(c: Call, now: int)
    ensures Admit(c, now) == None <==>
      RequestIsThere(c) && !IsFrozen(c) && QuoteIsThere(c) && HasRight(c) && IsRightStage(c) && IsDue(c, now)
  {
    StandingIsActive(c.at.quotes, c.request, c.user);
  }

  /** And a refusal names the first reason in that order. */
  lemma RefusalNamesTheReason(c: Call, now: int)
    ensures Admit(c, now) == Some(404) <==> !RequestIsThere(c) || (!IsFrozen(c) && !QuoteIsThere(c))
    ensures Admit(c, now) == Some(403) <==> RequestIsThere(c) && !IsFrozen(c) && QuoteIsThere(c) && !HasRight(c)
    ensures Admit(c, now) == Some(400) <==>
      RequestIsThere(c) && !IsFrozen(c) && QuoteIsThere(c) && HasRight(c) && !IsRightStage(c)
    ensures Admit(c, now).None? || Admit(c, now).value in {400, 403, 404, 409}
  {
  }

  // --------------------------------------------------------------------------
  // The transaction
  // --------------------------------------------------------------------------

  /** A bid is no counter, and each counter is one more than the quote it answers. */
  lemma DepthCountsCounters(quotes: seq<Quote>, i: int)
    requires RowsOk(quotes) && 0 <= i < |quotes|
    ensures quotes[i].parent == None ==> Depth(quotes, i) == 0 && CountedDepth(quotes, i) == 0
    ensures quotes[i].parent.Some? ==>
      var p := quotes[i].parent.value; 0 <= p < i && Depth(quotes, i) == Depth(quotes, p) + 1
  {
    assert RowOk(quotes, i);
  }

  predicate IsAlone(quotes: seq<Quote>, request: int, i: int) {
    forall j :: 0 <= j < |quotes| && j != i && IsLiveLeaf(quotes, j) ==> quotes[j].request != request
  }

  /** What the transaction checks again, on the rows as they are by then. */
  predicate IsStillDue(c: Call, db: Db, now: int)
    requires Addressed(c, db)
  {
    var r := db.requests[c.request];
    if c.action.Submit? then !r.orderClosed
    else
      var q := db.quotes[c.quote];
      && IsLeaf(db.quotes, c.quote)
      && (c.action.Select? || c.action.WithdrawBid? || !r.orderClosed)
      && match c.action
         case Select => q.status == Pending && InTime(q, now) && IsAlone(db.quotes, c.request, c.quote)
         case Accept => IsLive(q) && r.status == Open && r.inspector == None
         case Counter(_, _) =>
           Answers(q, c.role) && IsAlone(db.quotes, c.request, c.quote) && Depth(db.quotes, c.quote) < 4
         case Reject => IsLive(q)
         case Withdraw(_, elapsed, allowed) =>
           && !r.paymentActive && (c.role == Requester ==> allowed)
           && if c.at.quotes[c.quote].status == Accepted
              then r.status == Agreed && r.inspector == Some(q.inspector) && (c.role == Requester ==> elapsed)
              else q.status == Selected || (q.status == Countered && Answers(q, Provider)) ==> elapsed
         case _ => q.status == Pending
  }

  /** A transaction commits precisely then, and every refusal is a conflict. */
  lemma CommitsIff(c: Call, db: Db, now: int)
    requires Chains(db.quotes) && Addressed(c, db)
    ensures Commit(c, db, now).Committed? <==> IsStillDue(c, db, now)
    ensures Commit(c, db, now).Refused? ==> Commit(c, db, now).code == 409
  {
    if !c.action.Submit? {
      assert IsAlone(db.quotes, c.request, c.quote) <==> !HasCompetitor(db.quotes, c.request, c.quote);
      assert RowOk(db.quotes, c.quote) && Depth(db.quotes, c.quote) <= 4;
    }
  }

  /** Only quote i and request k are different. */
  ghost predicate OnlyChanges(a: Db, b: Db, i: int, q: Quote, k: int, r: Request) {
    && |b.quotes| == |a.quotes| && |b.requests| == |a.requests|
    && (forall j :: 0 <= j < |a.quotes| ==> b.quotes[j] == if j == i then q else a.quotes[j])
    && (forall j :: 0 <= j < |a.requests| ==> b.requests[j] == if j == k then r else a.requests[j])
  }

  /** What a committed answer leaves behind; for bids and counters see InspectionFees. */
  lemma CommitChanges(c: Call, db: Db, now: int)
    requires Addressed(c, db) && Commit(c, db, now).Committed? && !c.action.Submit? && !c.action.Counter?
    requires c.at.quotes[c.quote].counterAmount == None
    ensures var b := Commit(c, db, now).db;
      var r, q, k, i := db.requests[c.request], db.quotes[c.quote], c.request, c.quote;
      match c.action
      case Select => OnlyChanges(db, b, i, q.(status := Selected, expiresAt := None), k, r)
      case Accept =>
        && OnlyChanges(db, b, i, q.(status := Accepted, amount := c.at.quotes[i].amount), k, b.requests[k])
        && b.requests[k] == r.(status := Agreed, inspector := Some(q.inspector), payer := c.at.requests[k].payer,
                               terms := b.requests[k].terms, confirmed := false)
        && b.requests[k].terms.Some? && b.requests[k].terms.value.fee == c.at.quotes[i].amount
      case Reject => OnlyChanges(db, b, i, q.(status := Rejected), k, r)
      case Withdraw(_, _, _) =>
        OnlyChanges(db, b, i, q.(status := Withdrawn), k,
          if c.at.quotes[i].status == Accepted
          then Request(Open, r.payer, None, None, false, false, None, r.paymentActive, r.orderClosed) else r)
      case _ => OnlyChanges(db, b, i, q.(status := Withdrawn), k, r)
  {
  }

  // --------------------------------------------------------------------------
  // The rest of the request's life
  // --------------------------------------------------------------------------

  /** What an event needs of its request. */
  predicate MayHappen(r: Request, e: Event) {
    var seated := r.status == Agreed && r.inspector.Some?;
    match e
    case SellerConfirms(_) => seated && !r.orderClosed && !r.confirmed && !r.onSite && r.terms.Some? && r.terms.value.fee > 0
    case ArrivalConfirmed(_) => seated && r.confirmed && !r.onSite
    case Starts(_) => r.status == Agreed && !r.orderClosed && r.confirmed && r.onSite
    case Reports(_) => r.status == InProgress && !r.orderClosed && r.confirmed && r.onSite
    case CancelRequest(_) => r.status !in {Completed, InProgress} && !r.orderClosed && !r.paymentActive
    case AgreementLapses(_) => r.status == Agreed
    case BiddingExpires(_) => r.status == Open
    case NoShow(_) => seated && r.confirmed && !r.onSite
    case Stalls(_) => r.status in {Agreed, InProgress}
    case _ => true
  }

  /** What it makes of the request; the locked terms are told apart. */
  function Afterwards(r: Request, e: Event): Request {
    match e
    case SellerConfirms(_) => r.(confirmed := true)
    case ArrivalConfirmed(_) => r.(onSite := true)
    case Starts(_) => r.(status := InProgress)
    case Reports(_) => r.(status := Completed)
    case CancelRequest(_) => r.(status := Cancelled, inspector := None, terms := None, locked := None)
    case AgreementLapses(_) => r.(status := Cancelled)
    case BiddingExpires(_) => r.(status := Cancelled)
    case NoShow(_) => Request(Open, r.payer, None, None, false, false, None, r.paymentActive, r.orderClosed)
    case Stalls(_) => r.(status := Stalled)
    case PaymentMoves(_, active) => r.(paymentActive := active)
    case OrderFrozen(_) => r.(orderClosed := true)
    case OrderResumes(_) => r.(orderClosed := false)
    case OrderCancelled(_) => if r.status == Completed then r.(orderClosed := true) else r.(orderClosed := true, status := Cancelled)
    case _ => r
  }

  /** Which of the request's quotes it closes, and how. */
  function ClosedAs(r: Request, e: Event, q: Quote): QuoteStatus {
    var open := q.status in {Pending, Selected, Countered};
    match e
    case Reports(_) => if q.status == Pending then Withdrawn else q.status
    case CancelRequest(_) => if open then Expired else q.status
    case AgreementLapses(_) => if open || q.status == Accepted then Expired else q.status
    case BiddingExpires(_) => if open then Expired else q.status
    case NoShow(_) => if (open || q.status == Accepted) && r.inspector == Some(q.inspector) then Withdrawn else q.status
    case OrderCancelled(_) => if open || q.status == Accepted then Rejected else q.status
    case _ => q.status
  }

  ghost predicate SameButLocked(a: Request, b: Request) {
    b == a.(locked := b.locked)
  }

  /** An event changes its own request as the table says, closes the quotes it says, and touches no other row. */
  lemma EventChanges(db: Db, e: Event)
    requires !e.CreateRequest? && Exists(db, e.on)
    ensures var b, r, k := Happen(db, e), db.requests[e.on], e.on;
      if !MayHappen(r, e) then b == db
      else
        && |b.requests| == |db.requests| && |b.quotes| == |db.quotes|
        && (forall j :: 0 <= j < |db.requests| && j != k ==> b.requests[j] == db.requests[j])
        && SameButLocked(Afterwards(r, e), b.requests[k])
        && (if e.SellerConfirms? then b.requests[k].locked.Some? && b.requests[k].locked.value.fee == r.terms.value.fee
            else b.requests[k].locked == Afterwards(r, e).locked)
        && (forall j :: 0 <= j < |db.quotes| ==>
             b.quotes[j] == if db.quotes[j].request == k then db.quotes[j].(status := ClosedAs(r, e, db.quotes[j])) else db.quotes[j])
  {
  }

  lemma NewRequestIsOpen(db: Db, payer: FeePayer)
    ensures Happen(db, CreateRequest(payer)) ==
      Db(db.requests + [Request(Open, payer, None, None, false, false, None, false, false)], db.quotes)
  {
  }

  // --------------------------------------------------------------------------
  // Agreement stays in reach
  // --------------------------------------------------------------------------

  /** The side whose answer is awaited. */
  function InTurn(q: Quote): Role {
    if q.counteredBy == Some(Requester) then Provider else Requester
  }

  /** The two steps in which a party accepts quote i. */
  function Accepting(s: Sys, i: int, user: int, now: int): seq<Step>
    requires 0 <= i < |s.db.quotes|
  {
    [Read(Accept, InTurn(s.db.quotes[i]), user, s.db.quotes[i].request, i, now), Run(|s.calls|, now)]
  }

  /**
   However a run got there, while a quote is in negotiation and in time and its request open, free and not frozen,
   the side in turn can close the deal at once: with that inspector, at the price on the table.
   */
  lemma {:induction false} AgreementIsInReach(steps: seq<Step>, i: int, user: int, now: int)
    requires IsLiveLeaf(After(steps).db.quotes, i) && InTime(After(steps).db.quotes[i], now)
    requires InTurn(After(steps).db.quotes[i]) == Provider ==> user == After(steps).db.quotes[i].inspector
    requires Exists(After(steps).db, After(steps).db.quotes[i].request)
    requires var r := After(steps).db.requests[After(steps).db.quotes[i].request];
      r.status == Open && r.inspector == None && !r.orderClosed
    ensures var q := After(steps).db.quotes[i];
      var db := After(steps + Accepting(After(steps), i, user, now)).db;
      && |db.requests| == |After(steps).db.requests| && |db.quotes| == |After(steps).db.quotes|
      && db.quotes[i] == q.(status := Accepted)
      && db.requests[q.request].status == Agreed && db.requests[q.request].inspector == Some(q.inspector)
      && db.requests[q.request].terms.Some? && db.requests[q.request].terms.value.fee == q.amount
  {
    var s := After(steps);
    var q, accepting := s.db.quotes[i], Accepting(s, i, user, now);
    var c := ReadCall(s.db, accepting[0]);
    InspectionQuoteRuns.RunsAreSound(steps);
    assert RowOk(s.db.quotes, i);
    AdmittedIff(c, now);
    CommitsIff(c, s.db, now);
    CommitChanges(c, s.db, now);
    var read := steps + [accepting[0]];
    assert read[..|steps|] == steps;
    assert After(read) == Sys(s.db, s.calls + [c]);
    var all := steps + accepting;
    assert all[..|all| - 1] == read && all[|all| - 1] == accepting[1];
  }
}
