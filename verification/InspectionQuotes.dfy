/**
 Sealed bids and counter-offers for an inspection, and the life of the inspection request
 they belong to. A row's id is its index: rows are only ever appended.

 A handler first reads (Admit) and later runs one transaction (Commit). What it read is kept
 in the Call, so a transaction may run on tables that have moved on since.
 */
module InspectionQuotes {
  import opened Money

  datatype Role = Requester | Provider

  datatype QuoteStatus = Pending | Selected | Countered | Accepted | Rejected | Withdrawn | Expired

  datatype RequestStatus = Open | Agreed | InProgress | Completed | Stalled | Cancelled

  datatype Quote = Quote(
    request: int, inspector: int, amount: int, status: QuoteStatus, parent: Option<int>,
    counterAmount: Option<int>, counteredBy: Option<Role>, expiresAt: Option<int>)

  datatype Terms = Terms(fee: int, payer: FeePayer, buyerFee: Option<int>, sellerFee: Option<int>)

  /** `terms` are agreed at accept; `locked` is the copy taken when the seller confirms. */
  datatype Request = Request(
    status: RequestStatus, payer: FeePayer, inspector: Option<int>, terms: Option<Terms>,
    confirmed: bool, onSite: bool, locked: Option<Terms>, paymentActive: bool, orderClosed: bool)

  datatype Db = Db(requests: seq<Request>, quotes: seq<Quote>)

  const MAX_COUNTER_ROUNDS := 4

  // --------------------------------------------------------------------------
  // Reading the quote table
  // --------------------------------------------------------------------------

  predicate HasChild(quotes: seq<Quote>, i: int) {
    exists j :: 0 <= j < |quotes| && quotes[j].parent == Some(i)
  }

  predicate IsLive(q: Quote) {
    q.status == Selected || q.status == Countered
  }

  predicate IsLeaf(quotes: seq<Quote>, i: int) {
    0 <= i < |quotes| && !HasChild(quotes, i)
  }

  predicate IsLiveLeaf(quotes: seq<Quote>, i: int) {
    IsLeaf(quotes, i) && IsLive(quotes[i])
  }

  /** findCompetingLiveQuote: some other live leaf of the same request. */
  predicate HasCompetitor(quotes: seq<Quote>, request: int, i: int) {
    exists j :: 0 <= j < |quotes| && j != i && quotes[j].request == request && IsLiveLeaf(quotes, j)
  }

  /** How many counters lead to quote i. */
  function Depth(quotes: seq<Quote>, i: int): int
    requires 0 <= i < |quotes|
    decreases i
  {
    match quotes[i].parent
    case Some(p) => if 0 <= p < i then 1 + Depth(quotes, p) else 0
    case None => 0
  }

  /** What countCounterDepth answers: it gives up after fifty rows. */
  function CountedDepth(quotes: seq<Quote>, i: int): int
    requires 0 <= i < |quotes|
  {
    if Depth(quotes, i) < 50 then Depth(quotes, i) else 50
  }

  function Other(r: Role): Role {
    match r case Requester => Provider case Provider => Requester
  }

  /** quoteTurn: who must answer. */
  function Turn(q: Quote): Option<Role> {
    match q.status
    case Pending => Some(Requester)
    case Selected => Some(Requester)
    case Countered => Some(if q.counteredBy == Some(Requester) then Provider else Requester)
    case _ => None
  }

  predicate NotYourTurn(q: Quote, role: Role) {
    Turn(q).Some? && Turn(q) != Some(role)
  }

  predicate IsExpired(q: Quote, now: int) {
    q.expiresAt.Some? && q.expiresAt.value <= now
  }

  function FinalAmount(q: Quote): int {
    if q.status == Countered && q.counterAmount.Some? then q.counterAmount.value else q.amount
  }

  function AgreeTerms(payer: FeePayer, fee: int): Terms {
    Terms(fee, payer, BuyerShare(payer, fee), SellerShare(payer, fee))
  }

  /** A silent-release clock runs only while the provider is expected to answer. */
  predicate ProviderIsSilent(q: Quote) {
    q.status == Selected || (q.status == Countered && q.counteredBy == Some(Requester))
  }

  // --------------------------------------------------------------------------
  // Handlers
  // --------------------------------------------------------------------------

  /**
   The booleans of Withdraw stand for the clocks and counters consulted on the way: whether the
   waiting window was over at the first read and at the transaction, and whether releases are left.
   */
  datatype Action =
    | Submit(bid: int, bidExpiresAt: int)
    | Select
    | Accept
    | Counter(offer: int, offerExpiresAt: int)
    | Reject
    | Withdraw(elapsedAtRead: bool, elapsed: bool, allowed: bool)
    | WithdrawBid

  /** A request in flight: who asks, for which rows, and the tables its first reads saw. */
  datatype Call = Call(action: Action, role: Role, user: int, request: int, quote: int, at: Db)

  datatype Result = Committed(db: Db) | Refused(code: int)

  /** The checks made on the first read; Some(code) is an error response. */
  function Admit(c: Call, now: int): Option<int> {
    if !(0 <= c.request < |c.at.requests|) then Some(404)
    else
      var r := c.at.requests[c.request];
      if c.action.Submit? then
        if r.status == Completed || r.status == Cancelled then Some(400)
        else if HasActiveBid(c.at.quotes, c.request, c.user) then Some(409)
        else None
      else if r.orderClosed then Some(409)
      else if !(0 <= c.quote < |c.at.quotes|) || c.at.quotes[c.quote].request != c.request then Some(404)
      else
        var q := c.at.quotes[c.quote];
        if c.role == Provider && q.inspector != c.user then Some(403)
        else AdmitOn(c, r, q, now)
  }

  function AdmitOn(c: Call, r: Request, q: Quote, now: int): Option<int> {
    match c.action
    case Submit(_, _) => None
    case Select =>
      if c.role != Requester then Some(403)
      else if r.status != Open || q.status != Pending then Some(400)
      else if IsExpired(q, now) then Some(409) else None
    case Accept =>
      if r.status != Open || !IsLive(q) then Some(400)
      else if IsExpired(q, now) || NotYourTurn(q, c.role) then Some(409) else None
    case Counter(_, _) =>
      if r.status != Open || !IsLive(q) then Some(400)
      else if IsExpired(q, now) || NotYourTurn(q, c.role) then Some(409) else None
    case Reject =>
      if q.status == Pending then Some(409)
      else if !IsLive(q) then Some(400)
      else if NotYourTurn(q, c.role) then Some(409) else None
    case Withdraw(elapsedAtRead, _, _) =>
      if c.role != Requester && q.status != Accepted then Some(403)
      else if q.status != Accepted && !ProviderIsSilent(q) then Some(400)
      else if c.role == Requester && !elapsedAtRead then Some(409) else None
    case WithdrawBid =>
      if c.role != Provider then Some(403)
      else if q.status != Pending then Some(409) else None
  }

  predicate HasActiveBid(quotes: seq<Quote>, request: int, inspector: int) {
    exists j :: 0 <= j < |quotes| && quotes[j].request == request && quotes[j].inspector == inspector &&
      IsLeaf(quotes, j) && quotes[j].status in {Pending, Selected, Countered, Accepted}
  }

  /** The transaction of an admitted call, on the tables as they are by then. */
  function Commit(c: Call, db: Db, now: int): Result
    requires Addressed(c, db)
  {
    match c.action
    case Submit(bid, expiresAt) => CommitSubmit(c, db, bid, expiresAt)
    case Select => CommitSelect(c, db, now)
    case Accept => CommitAccept(c, db)
    case Counter(offer, expiresAt) => CommitCounter(c, db, offer, expiresAt)
    case Reject => CommitReject(c, db)
    case Withdraw(_, elapsed, allowed) => CommitWithdraw(c, db, elapsed, allowed)
    case WithdrawBid => CommitWithdrawBid(c, db)
  }

  /** The rows the first reads found are still there: rows are never removed. */
  predicate Addressed(c: Call, db: Db) {
    && 0 <= c.request < |c.at.requests| <= |db.requests|
    && |c.at.quotes| <= |db.quotes|
    && (!c.action.Submit? ==> 0 <= c.quote < |c.at.quotes| && c.at.quotes[c.quote].request == c.request)
  }

  function SetStatus(quotes: seq<Quote>, i: int, status: QuoteStatus): seq<Quote>
    requires 0 <= i < |quotes|
  {
    quotes[i := quotes[i].(status := status)]
  }

  function CommitSubmit(c: Call, db: Db, bid: int, expiresAt: int): Result
    requires Addressed(c, db)
  {
    if db.requests[c.request].orderClosed then Refused(409)
    else
      Committed(db.(quotes := db.quotes +
        [Quote(c.request, c.user, bid, Pending, None, None, None, Some(expiresAt))]))
  }

  function CommitSelect(c: Call, db: Db, now: int): Result
    requires Addressed(c, db) && !c.action.Submit?
  {
    if !IsLeaf(db.quotes, c.quote) || db.quotes[c.quote].status != Pending then Refused(409)
    else if IsExpired(db.quotes[c.quote], now) then Refused(409)
    else if HasCompetitor(db.quotes, c.request, c.quote) then Refused(409)
    else
      Committed(db.(quotes := db.quotes[c.quote := db.quotes[c.quote].(status := Selected, expiresAt := None)]))
  }

  /** The fee and the payer come from the first read; the row and its inspector are read afresh. */
  function CommitAccept(c: Call, db: Db): Result
    requires Addressed(c, db) && !c.action.Submit?
  {
    var r := db.requests[c.request];
    if r.orderClosed then Refused(409)
    else if !IsLiveLeaf(db.quotes, c.quote) then Refused(409)
    else if r.status != Open || r.inspector != None then Refused(409)
    else
      var fee := FinalAmount(c.at.quotes[c.quote]);
      var terms := AgreeTerms(c.at.requests[c.request].payer, fee);
      var agreed := r.(inspector := Some(db.quotes[c.quote].inspector), terms := Some(terms),
                       payer := c.at.requests[c.request].payer, status := Agreed, confirmed := false);
      Committed(Db(db.requests[c.request := agreed],
                   db.quotes[c.quote := db.quotes[c.quote].(status := Accepted, amount := fee)]))
  }

  function CommitCounter(c: Call, db: Db, offer: int, expiresAt: int): Result
    requires Addressed(c, db) && !c.action.Submit?
  {
    if db.requests[c.request].orderClosed then Refused(409)
    else if !IsLiveLeaf(db.quotes, c.quote) then Refused(409)
    else if NotYourTurn(db.quotes[c.quote], c.role) then Refused(409)
    else if HasCompetitor(db.quotes, c.request, c.quote) then Refused(409)
    else if CountedDepth(db.quotes, c.quote) >= MAX_COUNTER_ROUNDS then Refused(409)
    else
      var row := db.quotes[c.quote];
      Committed(db.(quotes := SetStatus(db.quotes, c.quote, Countered) +
        [Quote(row.request, row.inspector, offer, Countered, Some(c.quote), None, Some(c.role), Some(expiresAt))]))
  }

  function CommitReject(c: Call, db: Db): Result
    requires Addressed(c, db) && !c.action.Submit?
  {
    if db.requests[c.request].orderClosed then Refused(409)
    else if !IsLiveLeaf(db.quotes, c.quote) then Refused(409)
    else Committed(db.(quotes := SetStatus(db.quotes, c.quote, Rejected)))
  }

  /** Whether this releases an agreement or a silent inspector was decided by the first read. */
  function CommitWithdraw(c: Call, db: Db, elapsed: bool, allowed: bool): Result
    requires Addressed(c, db) && !c.action.Submit?
  {
    var r := db.requests[c.request];
    var releasesAgreement := c.at.quotes[c.quote].status == Accepted;
    if r.orderClosed then Refused(409)
    else if c.role == Requester && !allowed then Refused(409)
    else if r.paymentActive then Refused(409)
    else if !IsLeaf(db.quotes, c.quote) then Refused(409)
    else if releasesAgreement && c.role == Requester && !elapsed then Refused(409)
    else if releasesAgreement && (r.status != Agreed || r.inspector != Some(db.quotes[c.quote].inspector)) then Refused(409)
    else if !releasesAgreement && ProviderIsSilent(db.quotes[c.quote]) && !elapsed then Refused(409)
    else
      Committed(Db(if releasesAgreement then db.requests[c.request := Reopened(r)] else db.requests,
                   SetStatus(db.quotes, c.quote, Withdrawn)))
  }

  function Reopened(r: Request): Request {
    r.(inspector := None, terms := None, locked := None, confirmed := false, onSite := false, status := Open)
  }

  function CommitWithdrawBid(c: Call, db: Db): Result
    requires Addressed(c, db) && !c.action.Submit?
  {
    if !IsLeaf(db.quotes, c.quote) || db.quotes[c.quote].status != Pending then Refused(409)
    else Committed(db.(quotes := SetStatus(db.quotes, c.quote, Withdrawn)))
  }

  // --------------------------------------------------------------------------
  // The rest of the request's life
  // --------------------------------------------------------------------------

  /** Transactions of other files, each atomic; one whose guard fails changes nothing. */
  datatype Event =
    | CreateRequest(newPayer: FeePayer)
    | SellerConfirms(on: int)
    | ArrivalConfirmed(on: int)
    | Starts(on: int)
    | Reports(on: int)
    | CancelRequest(on: int)
    | AgreementLapses(on: int)
    | BiddingExpires(on: int)
    | NoShow(on: int)
    | Stalls(on: int)
    | PaymentMoves(on: int, active: bool)
    | OrderFrozen(on: int)
    | OrderResumes(on: int)
    | OrderCancelled(on: int)

  const BIDDING: set<QuoteStatus> := {Pending, Selected, Countered}
  const UNSETTLED: set<QuoteStatus> := {Pending, Selected, Countered, Accepted}

  /** updateMany on the quotes of a request (of one inspector, if given). */
  function CloseQuotes(quotes: seq<Quote>, request: int, inspector: Option<int>,
    from: set<QuoteStatus>, to: QuoteStatus): (r: seq<Quote>)
    ensures |r| == |quotes|
    ensures forall i :: 0 <= i < |quotes| ==> r[i] == CloseQuote(quotes[i], request, inspector, from, to)
  {
    seq(|quotes|, i requires 0 <= i < |quotes| => CloseQuote(quotes[i], request, inspector, from, to))
  }

  function CloseQuote(q: Quote, request: int, inspector: Option<int>,
    from: set<QuoteStatus>, to: QuoteStatus): Quote
  {
    if q.request == request && q.status in from && (inspector.Some? ==> q.inspector == inspector.value)
    then q.(status := to) else q
  }

  predicate Exists(db: Db, i: int) {
    0 <= i < |db.requests|
  }

  function Happen(db: Db, e: Event): Db {
    if e.CreateRequest? then
      db.(requests := db.requests +
        [Request(Open, e.newPayer, None, None, false, false, None, false, false)])
    else if !Exists(db, e.on) then db
    else
      var r := db.requests[e.on];
      match e
      case CreateRequest(_) => db
      case SellerConfirms(i) =>
        if !r.orderClosed && r.status == Agreed && r.inspector.Some? && !r.confirmed && !r.onSite &&
           r.terms.Some? && r.terms.value.fee > 0
        then db.(requests := db.requests[i := r.(confirmed := true, locked := Some(AgreeTerms(r.payer, r.terms.value.fee)))])
        else db
      case ArrivalConfirmed(i) =>
        if r.status == Agreed && r.inspector.Some? && r.confirmed && !r.onSite
        then db.(requests := db.requests[i := r.(onSite := true)]) else db
      case Starts(i) =>
        if !r.orderClosed && r.status == Agreed && r.confirmed && r.onSite
        then db.(requests := db.requests[i := r.(status := InProgress)]) else db
      case Reports(i) =>
        if !r.orderClosed && r.status == InProgress && r.confirmed && r.onSite
        then Db(db.requests[i := r.(status := Completed)],
                CloseQuotes(db.quotes, i, None, {Pending}, Withdrawn))
        else db
      case CancelRequest(i) =>
        if !r.orderClosed && r.status != Completed && r.status != InProgress && !r.paymentActive
        then Db(db.requests[i := r.(inspector := None, terms := None, locked := None, status := Cancelled)],
                CloseQuotes(db.quotes, i, None, BIDDING, Expired))
        else db
      case AgreementLapses(i) =>
        if r.status == Agreed
        then Db(db.requests[i := r.(status := Cancelled)], CloseQuotes(db.quotes, i, None, UNSETTLED, Expired))
        else db
      case BiddingExpires(i) =>
        if r.status == Open
        then Db(db.requests[i := r.(status := Cancelled)], CloseQuotes(db.quotes, i, None, BIDDING, Expired))
        else db
      case NoShow(i) =>
        if r.status == Agreed && r.inspector.Some? && r.confirmed && !r.onSite
        then Db(db.requests[i := Reopened(r)], CloseQuotes(db.quotes, i, r.inspector, UNSETTLED, Withdrawn))
        else db
      case Stalls(i) =>
        if r.status == Agreed || r.status == InProgress
        then db.(requests := db.requests[i := r.(status := Stalled)]) else db
      case PaymentMoves(i, active) => db.(requests := db.requests[i := r.(paymentActive := active)])
      case OrderFrozen(i) => db.(requests := db.requests[i := r.(orderClosed := true)])
      case OrderResumes(i) => db.(requests := db.requests[i := r.(orderClosed := false)])
      case OrderCancelled(i) =>
        Db(db.requests[i := r.(orderClosed := true, status := if r.status == Completed then Completed else Cancelled)],
           CloseQuotes(db.quotes, i, None, UNSETTLED, Rejected))
  }

  // --------------------------------------------------------------------------
  // Interleaved runs
  // --------------------------------------------------------------------------

  /** The tables, and the calls admitted but not yet answered, with what each had read. */
  datatype Sys = Sys(db: Db, calls: seq<Call>)

  datatype Step =
    | Read(action: Action, role: Role, user: int, request: int, quote: int, readAt: int)
    | Run(call: int, runAt: int)
    | Elsewhere(event: Event)

  const START: Sys := Sys(Db([], []), [])

  function ReadCall(db: Db, s: Step): Call
    requires s.Read?
  {
    Call(s.action, s.role, s.user, s.request, s.quote, db)
  }

  /** A call runs its transaction once: committed or refused, it is answered. */
  function Answered(calls: seq<Call>, i: int): (r: seq<Call>)
    requires 0 <= i < |calls|
    ensures |r| == |calls| - 1
    ensures forall j :: 0 <= j < |r| ==> r[j] == if j < i then calls[j] else calls[j + 1]
  {
    calls[..i] + calls[i + 1..]
  }

  function Next(s: Sys, step: Step): Sys {
    match step
    case Read(_, _, _, _, _, now) =>
      var c := ReadCall(s.db, step);
      if Admit(c, now) == None then s.(calls := s.calls + [c]) else s
    case Run(i, now) =>
      if 0 <= i < |s.calls| && Addressed(s.calls[i], s.db) then
        match Commit(s.calls[i], s.db, now)
        case Committed(db) => Sys(db, Answered(s.calls, i))
        case Refused(_) => s.(calls := Answered(s.calls, i))
      else s
    case Elsewhere(event) => s.(db := Happen(s.db, event))
  }

  function After(steps: seq<Step>): Sys {
    if steps == [] then START else Next(After(steps[..|steps| - 1]), steps[|steps| - 1])
  }
}
