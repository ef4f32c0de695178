/**
 What an inspection is agreed to cost: every price in the tables was named in the run by the party the row says,
 and every fee was named by one party and taken by the other. Nothing is asked of the interleaving.
 */
module InspectionFees {
  import opened Money
  import opened InspectionQuotes
  import opened InspectionQuoteChains
  import opened InspectionQuoteRuns

  // --------------------------------------------------------------------------
  // What bidding and countering store
  // --------------------------------------------------------------------------

  /** The only difference between the tables is one more quote, and the status of the quote it answers. */
  ghost predicate AddsOne(a: Db, b: Db, q: Quote) {
    && b.requests == a.requests
    && |b.quotes| == |a.quotes| + 1 && b.quotes[|a.quotes|] == q
    && forall i :: 0 <= i < |a.quotes| ==>
         b.quotes[i] == if q.parent == Some(i) then a.quotes[i].(status := Countered) else a.quotes[i]
  }

  /** A counter answers the quote with the price offered, for its request and inspector, until the offer expires. */
  lemma CounterAddsTheOffer(c: Call, db: Db, now: int)
    requires Chains(db.quotes) && Addressed(c, db) && c.action.Counter? && Commit(c, db, now).Committed?
    ensures var row := db.quotes[c.quote];
      AddsOne(db, Commit(c, db, now).db,
        Quote(row.request, row.inspector, c.action.offer, Countered, Some(c.quote), None, Some(c.role), Some(c.action.offerExpiresAt)))
    ensures db.quotes[c.quote].status in {Selected, Countered} && !HasChild(db.quotes, c.quote)
  {
  }

  /** A bid is stored at its price, for the one who bids, until it expires. */
  lemma SubmitAddsTheBid(c: Call, db: Db, now: int)
    requires Addressed(c, db) && c.action.Submit? && Commit(c, db, now).Committed?
    ensures AddsOne(db, Commit(c, db, now).db,
      Quote(c.request, c.user, c.action.bid, Pending, None, None, None, Some(c.action.bidExpiresAt)))
  {
  }

  // --------------------------------------------------------------------------
  // Who named a price
  // --------------------------------------------------------------------------

  /** The inspector names the price of a bid, and whoever countered names the price of a counter. */
  function NamedBy(q: Quote): Role {
    match q.counteredBy case None => Provider case Some(role) => role
  }

  predicate Names(step: Step, request: int, namer: Role, inspector: int, amount: int) {
    && step.Read? && step.request == request && (namer == Provider ==> step.user == inspector)
    && match step.action
       case Submit(bid, _) => bid == amount && namer == Provider
       case Counter(offer, _) => offer == amount && namer == step.role
       case _ => false
  }

  ghost predicate WasNamed(steps: seq<Step>, q: Quote) {
    exists n :: 0 <= n < |steps| && Names(steps[n], q.request, NamedBy(q), q.inspector, q.amount)
  }

  predicate Takes(step: Step, request: int, namer: Role) {
    step.Read? && step.request == request && step.action.Accept? && step.role == namer
  }

  /** The fee was named for this request by one party, and later the other party accepted. */
  ghost predicate IsBilateral(steps: seq<Step>, request: int, fee: int) {
    exists n, a, namer, inspector :: 0 <= n < a < |steps| &&
      Names(steps[n], request, namer, inspector, fee) && Takes(steps[a], request, Other(namer))
  }

  // --------------------------------------------------------------------------
  // What every run keeps
  // --------------------------------------------------------------------------

  /** The call was read at some step, and all it saw had been named before. */
  ghost predicate WasRead(steps: seq<Step>, c: Call) {
    exists n :: 0 <= n < |steps| && IsReadOf(steps, n, c)
  }

  ghost predicate IsReadOf(steps: seq<Step>, n: int, c: Call)
    requires 0 <= n < |steps|
  {
    && steps[n].Read? && c == ReadCall(c.at, steps[n])
    && forall i :: 0 <= i < |c.at.quotes| ==> WasNamed(steps[..n], c.at.quotes[i])
  }

  ghost predicate SameAmounts(a: Db, b: Db) {
    |a.quotes| <= |b.quotes| && forall i :: 0 <= i < |a.quotes| ==> a.quotes[i].amount == b.quotes[i].amount
  }

  ghost predicate AreAgreed(steps: seq<Step>, request: int, payer: FeePayer, t: Terms) {
    t.payer == payer && AreSharesOf(payer, t.fee, t.buyerFee, t.sellerFee) && IsBilateral(steps, request, t.fee)
  }

  ghost predicate FeesOk(steps: seq<Step>, r: Request, k: int) {
    && (r.terms.Some? ==> AreAgreed(steps, k, r.payer, r.terms.value))
    && (r.locked.Some? ==> AreAgreed(steps, k, r.payer, r.locked.value))
  }

  ghost predicate Named(steps: seq<Step>, s: Sys) {
    && (forall i :: 0 <= i < |s.db.quotes| ==> WasNamed(steps, s.db.quotes[i]))
    && (forall i :: 0 <= i < |s.calls| ==> WasRead(steps, s.calls[i]) && SameAmounts(s.calls[i].at, s.db))
    && (forall k :: 0 <= k < |s.db.requests| ==> FeesOk(steps, s.db.requests[k], k))
  }

  // A run that goes on forgets nothing.

  lemma NamedLonger(steps: seq<Step>, step: Step, q: Quote)
    requires WasNamed(steps, q)
    ensures WasNamed(steps + [step], q)
  {
    var n :| 0 <= n < |steps| && Names(steps[n], q.request, NamedBy(q), q.inspector, q.amount);
    assert (steps + [step])[n] == steps[n];
  }

  lemma ReadLonger(steps: seq<Step>, step: Step, c: Call)
    requires WasRead(steps, c)
    ensures WasRead(steps + [step], c)
  {
    var n :| 0 <= n < |steps| && IsReadOf(steps, n, c);
    assert (steps + [step])[..n] == steps[..n];
    assert IsReadOf(steps + [step], n, c);
  }

  lemma BilateralLonger(steps: seq<Step>, step: Step, request: int, fee: int)
    requires IsBilateral(steps, request, fee)
    ensures IsBilateral(steps + [step], request, fee)
  {
    var n, a, namer, inspector :| 0 <= n < a < |steps| &&
      Names(steps[n], request, namer, inspector, fee) && Takes(steps[a], request, Other(namer));
    var more := steps + [step];
    assert Names(more[n], request, namer, inspector, fee) && Takes(more[a], request, Other(namer));
  }

  lemma FeesLonger(steps: seq<Step>, step: Step, r: Request, k: int)
    requires FeesOk(steps, r, k)
    ensures FeesOk(steps + [step], r, k)
  {
    if r.terms.Some? {
      BilateralLonger(steps, step, k, r.terms.value.fee);
    }
    if r.locked.Some? {
      BilateralLonger(steps, step, k, r.locked.value.fee);
    }
  }

  lemma SameAmountsThrough(a: Db, b: Db, c: Db)
    requires SameAmounts(a, b) && SameAmounts(b, c)
    ensures SameAmounts(a, c)
  {
  }

  lemma LongerRun(steps: seq<Step>, step: Step, s: Sys)
    requires Named(steps, s)
    ensures Named(steps + [step], s)
  {
    forall i | 0 <= i < |s.db.quotes| ensures WasNamed(steps + [step], s.db.quotes[i]) {
      NamedLonger(steps, step, s.db.quotes[i]);
    }
    forall i | 0 <= i < |s.calls| ensures WasRead(steps + [step], s.calls[i]) {
      ReadLonger(steps, step, s.calls[i]);
    }
    forall k | 0 <= k < |s.db.requests| ensures FeesOk(steps + [step], s.db.requests[k], k) {
      FeesLonger(steps, step, s.db.requests[k], k);
    }
  }

  /** An admitted call whose transaction is about to run on db. */
  ghost predicate IsDue(steps: seq<Step>, c: Call, db: Db) {
    && Chains(db.quotes) && Evolves(c.at, db) && Admitted(c) && Addressed(c, db)
    && WasRead(steps, c) && SameAmounts(c.at, db)
  }

  // Prices never change, and a new row's price was named by the call that brings it.

  lemma AcceptKeepsAmounts(steps: seq<Step>, c: Call, db: Db, now: int)
    requires IsDue(steps, c, db)
    requires c.action.Accept? && Commit(c, db, now).Committed?
    ensures c.at.quotes[c.quote] == db.quotes[c.quote] && db.quotes[c.quote].counterAmount == None
    ensures SameAmounts(db, Commit(c, db, now).db)
  {
    var readAt :| Admit(c, readAt) == None;
    LiveRowIsUnchanged(c.at, db, c.quote);
    assert RowOk(db.quotes, c.quote);
  }

  lemma CommitKeepsAmounts(steps: seq<Step>, c: Call, db: Db, now: int)
    requires IsDue(steps, c, db) && Commit(c, db, now).Committed?
    ensures SameAmounts(db, Commit(c, db, now).db)
  {
    if c.action.Accept? {
      AcceptKeepsAmounts(steps, c, db, now);
    } else if c.action.Counter? {
      CounterAddsTheOffer(c, db, now);
    }
  }

  lemma NewRowWasNamed(steps: seq<Step>, c: Call, db: Db, now: int)
    requires IsDue(steps, c, db)
    requires c.action.Submit? || c.action.Counter?
    requires Commit(c, db, now).Committed?
    ensures WasNamed(steps, Commit(c, db, now).db.quotes[|db.quotes|])
  {
    var n :| 0 <= n < |steps| && IsReadOf(steps, n, c);
    var q := Commit(c, db, now).db.quotes[|db.quotes|];
    if c.action.Counter? {
      CounterAddsTheOffer(c, db, now);
      var readAt :| Admit(c, readAt) == None;
      QuoteStaysWithItsRequest(c, db);
      assert RowEvolves(c.at.quotes[c.quote], db.quotes[c.quote]);
    }
    assert Names(steps[n], q.request, NamedBy(q), q.inspector, q.amount);
  }

  lemma CommitKeepsQuotesNamed(steps: seq<Step>, c: Call, db: Db, now: int)
    requires IsDue(steps, c, db)
    requires Commit(c, db, now).Committed?
    requires forall i :: 0 <= i < |db.quotes| ==> WasNamed(steps, db.quotes[i])
    ensures var b := Commit(c, db, now).db.quotes; forall i :: 0 <= i < |b| ==> WasNamed(steps, b[i])
  {
    var b := Commit(c, db, now).db.quotes;
    CommitKeepsAmounts(steps, c, db, now);
    CommitEvolves(c, db, now);
    forall i | 0 <= i < |b| ensures WasNamed(steps, b[i]) {
      if i < |db.quotes| {
        assert RowEvolves(db.quotes[i], b[i]);
        SameOfferSameName(steps, db.quotes[i], b[i]);
      } else {
        NewRowWasNamed(steps, c, db, now);
      }
    }
  }

  lemma SameOfferSameName(steps: seq<Step>, a: Quote, b: Quote)
    requires WasNamed(steps, a) && SameLink(a, b) && a.amount == b.amount
    ensures WasNamed(steps, b)
  {
    var n :| 0 <= n < |steps| && Names(steps[n], a.request, NamedBy(a), a.inspector, a.amount);
    assert Names(steps[n], b.request, NamedBy(b), b.inspector, b.amount);
  }

  /** The fee that an accept agrees was named by the other party, before the accepting party read it. */
  lemma AcceptIsBilateral(steps: seq<Step>, c: Call, db: Db, now: int)
    requires IsDue(steps, c, db)
    requires c.action.Accept? && Commit(c, db, now).Committed?
    ensures var r := Commit(c, db, now).db.requests[c.request];
      r.terms.Some? && AreAgreed(steps, c.request, r.payer, r.terms.value)
  {
    AcceptKeepsAmounts(steps, c, db, now);
    var q := c.at.quotes[c.quote];
    var a :| 0 <= a < |steps| && IsReadOf(steps, a, c);
    assert WasNamed(steps[..a], q);
    var n :| 0 <= n < a && Names(steps[..a][n], q.request, NamedBy(q), q.inspector, q.amount);
    var readAt :| Admit(c, readAt) == None;
    assert RowOk(db.quotes, c.quote);
    assert Names(steps[n], c.request, NamedBy(q), q.inspector, q.amount) && Takes(steps[a], c.request, Other(NamedBy(q)));
    SharesSumToFee(c.at.requests[c.request].payer, q.amount);
  }

  lemma CommitKeepsFees(steps: seq<Step>, c: Call, db: Db, now: int)
    requires IsDue(steps, c, db)
    requires Commit(c, db, now).Committed?
    requires forall k :: 0 <= k < |db.requests| ==> FeesOk(steps, db.requests[k], k)
    ensures var b := Commit(c, db, now).db.requests; forall k :: 0 <= k < |b| ==> FeesOk(steps, b[k], k)
  {
    var b := Commit(c, db, now).db.requests;
    if c.action.Accept? {
      AcceptIsBilateral(steps, c, db, now);
    }
    forall k | 0 <= k < |b| ensures FeesOk(steps, b[k], k) {
      assert FeesOk(steps, db.requests[k], k);
    }
  }

  lemma EventKeepsFees(steps: seq<Step>, db: Db, e: Event)
    requires forall k :: 0 <= k < |db.requests| ==> FeesOk(steps, db.requests[k], k)
    ensures var b := Happen(db, e).requests; forall k :: 0 <= k < |b| ==> FeesOk(steps, b[k], k)
  {
    var b := Happen(db, e).requests;
    forall k | 0 <= k < |b| ensures FeesOk(steps, b[k], k) {
      if k < |db.requests| {
        assert FeesOk(steps, db.requests[k], k);
        if db.requests[k].terms.Some? {
          SharesSumToFee(db.requests[k].payer, db.requests[k].terms.value.fee);
        }
      }
    }
  }

  lemma EventKeepsQuotes(steps: seq<Step>, db: Db, e: Event)
    requires forall i :: 0 <= i < |db.quotes| ==> WasNamed(steps, db.quotes[i])
    ensures SameAmounts(db, Happen(db, e))
    ensures var b := Happen(db, e).quotes; forall i :: 0 <= i < |b| ==> WasNamed(steps, b[i])
  {
    var b := Happen(db, e).quotes;
    forall i | 0 <= i < |b| ensures WasNamed(steps, b[i]) {
      SameOfferSameName(steps, db.quotes[i], b[i]);
    }
  }

  // --------------------------------------------------------------------------
  // Whole runs
  // --------------------------------------------------------------------------

  lemma {:induction false} StepKeepsNamed(steps: seq<Step>, s: Sys, step: Step)
    requires Sound(s) && Named(steps, s)
    ensures Named(steps + [step], Next(s, step))
  {
    var t, longer := Next(s, step), steps + [step];
    LongerRun(steps, step, s);
    match step
    case Read(_, _, _, _, _, now) =>
      var c := ReadCall(s.db, step);
      assert longer[..|steps|] == steps && longer[|steps|] == step;
      assert IsReadOf(longer, |steps|, c);
    case Elsewhere(e) =>
      EventKeepsFees(longer, s.db, e);
      EventKeepsQuotes(longer, s.db, e);
      forall i | 0 <= i < |t.calls| ensures SameAmounts(t.calls[i].at, t.db) {
        SameAmountsThrough(t.calls[i].at, s.db, t.db);
      }
    case Run(i, now) =>
      if Commits(s, step) {
        assert IsDue(longer, s.calls[i], s.db);
        CommitKeepsAmounts(longer, s.calls[i], s.db, now);
        CommitKeepsQuotesNamed(longer, s.calls[i], s.db, now);
        CommitKeepsFees(longer, s.calls[i], s.db, now);
        forall j | 0 <= j < |t.calls| ensures SameAmounts(t.calls[j].at, t.db) {
          SameAmountsThrough(t.calls[j].at, s.db, t.db);
        }
      }
  }

  lemma {:induction false} RunsAreNamed(steps: seq<Step>)
    ensures Named(steps, After(steps))
  {
    if steps != [] {
      var before := steps[..|steps| - 1];
      RunsAreNamed(before);
      RunsAreSound(before);
      StepKeepsNamed(before, After(before), steps[|steps| - 1]);
      assert before + [steps[|steps| - 1]] == steps;
    }
  }

  /** Every price in the tables of every run was named for that request, by the party that the row says. */
  lemma {:induction false} PricesWereNamed(steps: seq<Step>, i: int)
    requires 0 <= i < |After(steps).db.quotes|
    ensures WasNamed(steps, After(steps).db.quotes[i])
  {
    RunsAreNamed(steps);
  }

  /**
   Nobody sets a fee alone. Over every interleaving, the fee of agreed terms and of locked terms was named for that
   request by one party and afterwards accepted by the other, and it is billed to whoever the request says.
   */
  lemma {:induction false} FeesAreBilateral(steps: seq<Step>, k: int, t: Terms)
    requires Exists(After(steps).db, k)
    requires After(steps).db.requests[k].terms == Some(t) || After(steps).db.requests[k].locked == Some(t)
    ensures IsBilateral(steps, k, t.fee)
    ensures t.payer == After(steps).db.requests[k].payer && AreSharesOf(t.payer, t.fee, t.buyerFee, t.sellerFee)
  {
    RunsAreNamed(steps);
  }
}
