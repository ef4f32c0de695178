/** Runs in which reads and transactions interleave: a late transaction and what it may rely on. */
module InspectionQuoteRuns {
  import opened Money
  import opened InspectionQuotes
  import opened InspectionQuoteChains

  // --------------------------------------------------------------------------
  // How rows may change over time
  // --------------------------------------------------------------------------

  function Rank(s: QuoteStatus): int {
    match s
    case Pending => 0
    case Selected => 1
    case Countered => 2
    case Accepted => 3
    case _ => 4
  }

  ghost predicate RowEvolves(a: Quote, b: Quote) {
    && SameLink(a, b)
    && Rank(a.status) <= Rank(b.status)
    && (Rank(a.status) == Rank(b.status) ==> b == a.(status := b.status))
  }

  /** Rows stay, links stay, statuses only move on, and a selected row is countered only through a child. */
  ghost predicate Evolves(a: Db, b: Db) {
    && |a.requests| <= |b.requests|
    && |a.quotes| <= |b.quotes|
    && (forall i :: 0 <= i < |a.requests| ==> a.requests[i].payer == b.requests[i].payer)
    && (forall i :: 0 <= i < |a.quotes| ==> RowEvolves(a.quotes[i], b.quotes[i]))
    && (forall i :: 0 <= i < |a.quotes| && a.quotes[i].status == Selected && b.quotes[i].status == Countered ==>
         HasChild(b.quotes, i))
  }

  lemma EvolvesThrough(a: Db, b: Db, c: Db)
    requires Evolves(a, b) && Evolves(b, c)
    ensures Evolves(a, c)
  {
    forall i | 0 <= i < |a.quotes| ensures RowEvolves(a.quotes[i], c.quotes[i]) {
      assert RowEvolves(a.quotes[i], b.quotes[i]) && RowEvolves(b.quotes[i], c.quotes[i]);
    }
    assert SameLinks(b.quotes, c.quotes) by {
      forall i | 0 <= i < |b.quotes| ensures SameLink(b.quotes[i], c.quotes[i]) {
        assert RowEvolves(b.quotes[i], c.quotes[i]);
      }
    }
    forall i | 0 <= i < |a.quotes| && a.quotes[i].status == Selected && c.quotes[i].status == Countered
      ensures HasChild(c.quotes, i)
    {
      assert RowEvolves(a.quotes[i], b.quotes[i]) && RowEvolves(b.quotes[i], c.quotes[i]);
      ChildrenKept(b.quotes, c.quotes, i);
    }
  }

  lemma {:induction false} CommitEvolves(c: Call, db: Db, now: int)
    requires RowsOk(db.quotes) && Addressed(c, db) && Evolves(c.at, db)
    requires Commit(c, db, now).Committed?
    ensures Evolves(db, Commit(c, db, now).db)
  {
    if c.action.Counter? {
      CounterEvolves(c, db, now);
    } else if !c.action.Submit? {
      assert RowOk(db.quotes, c.quote);
      OneRowEvolves(db, Commit(c, db, now).db, c.quote);
    }
  }

  lemma OneRowEvolves(a: Db, b: Db, k: int)
    requires |a.requests| == |b.requests| && |a.quotes| == |b.quotes| && 0 <= k < |a.quotes|
    requires forall i :: 0 <= i < |a.requests| ==> a.requests[i].payer == b.requests[i].payer
    requires forall i :: 0 <= i < |a.quotes| && i != k ==> a.quotes[i] == b.quotes[i]
    requires RowEvolves(a.quotes[k], b.quotes[k]) && b.quotes[k].status != Countered
    ensures Evolves(a, b)
  {
  }

  lemma CounterEvolves(c: Call, db: Db, now: int)
    requires RowsOk(db.quotes) && Addressed(c, db) && Evolves(c.at, db)
    requires c.action.Counter? && Commit(c, db, now).Committed?
    ensures Evolves(db, Commit(c, db, now).db)
  {
    var a, b := db.quotes, Commit(c, db, now).db.quotes;
    assert b[|a|].parent == Some(c.quote);
    assert HasChild(b, c.quote);
    assert RowOk(a, c.quote);
  }

  lemma EventEvolves(db: Db, e: Event)
    ensures Evolves(db, Happen(db, e))
  {
  }

  // --------------------------------------------------------------------------
  // Every reachable state
  // --------------------------------------------------------------------------

  ghost predicate Sound(s: Sys) {
    && Chains(s.db.quotes)
    && (forall i :: 0 <= i < |s.calls| ==> Evolves(s.calls[i].at, s.db))
    && (forall i :: 0 <= i < |s.calls| ==> Admitted(s.calls[i]))
  }

  ghost predicate Admitted(c: Call) {
    exists now :: Admit(c, now) == None
  }

  lemma QuoteStaysWithItsRequest(c: Call, db: Db)
    requires Addressed(c, db) && Evolves(c.at, db) && !c.action.Submit?
    ensures db.quotes[c.quote].request == c.request
  {
    assert RowEvolves(c.at.quotes[c.quote], db.quotes[c.quote]);
  }

  lemma CallsKeepUp(before: Db, after: Db, calls: seq<Call>)
    requires Evolves(before, after)
    requires forall i :: 0 <= i < |calls| ==> Evolves(calls[i].at, before)
    ensures forall i :: 0 <= i < |calls| ==> Evolves(calls[i].at, after)
  {
    forall i | 0 <= i < |calls| ensures Evolves(calls[i].at, after) {
      EvolvesThrough(calls[i].at, before, after);
    }
  }

  lemma {:induction false} StepIsSound(s: Sys, step: Step)
    requires Sound(s)
    ensures Sound(Next(s, step))
  {
    match step
    case Read(_, _, _, _, _, now) =>
      var c := ReadCall(s.db, step);
      if Admit(c, now) == None {
        assert Evolves(c.at, s.db) && Admitted(c);
      }
    case Run(i, now) =>
      if 0 <= i < |s.calls| && Addressed(s.calls[i], s.db) && Commit(s.calls[i], s.db, now).Committed? {
        var c := s.calls[i];
        if !c.action.Submit? {
          QuoteStaysWithItsRequest(c, s.db);
        }
        CommitKeepsChains(c, s.db, now);
        CommitEvolves(c, s.db, now);
        CallsKeepUp(s.db, Commit(c, s.db, now).db, s.calls);
      }
    case Elsewhere(e) =>
      EventKeepsChains(s.db, e);
      EventEvolves(s.db, e);
      CallsKeepUp(s.db, Happen(s.db, e), s.calls);
  }

  /** Over every interleaving: one live leaf a request, one child a quote, alternating turns, depth four. */
  lemma {:induction false} RunsAreSound(steps: seq<Step>)
    ensures Sound(After(steps))
  {
    if steps != [] {
      RunsAreSound(steps[..|steps| - 1]);
      StepIsSound(After(steps[..|steps| - 1]), steps[|steps| - 1]);
    }
  }

  predicate IsChildOf(quotes: seq<Quote>, j: int, i: int) {
    0 <= j < |quotes| && quotes[j].parent == Some(i)
  }

  /** In the words of the marketplace: what a chain looks like in every reachable state. */
  lemma {:induction false} ChainsInEveryRun(steps: seq<Step>, i: int)
    requires 0 <= i < |After(steps).db.quotes|
    ensures var quotes := After(steps).db.quotes;
      && (forall j :: j != i && IsLiveLeaf(quotes, i) && IsLiveLeaf(quotes, j) ==> quotes[j].request != quotes[i].request)
      && (forall j, k :: IsChildOf(quotes, j, i) && IsChildOf(quotes, k, i) ==> j == k)
      && (quotes[i].parent.Some? ==>
            var p := quotes[i].parent.value;
            0 <= p < i && quotes[i].inspector == quotes[p].inspector && quotes[i].counteredBy != quotes[p].counteredBy)
      && Depth(quotes, i) <= 4 && CountedDepth(quotes, i) == Depth(quotes, i)
  {
    RunsAreSound(steps);
    var quotes := After(steps).db.quotes;
    assert RowOk(quotes, i);
    if quotes[i].parent.Some? {
      assert RowOk(quotes, quotes[i].parent.value);
    }
    forall j, k | IsChildOf(quotes, j, i) && IsChildOf(quotes, k, i) ensures j == k {
      assert OneChildEach(quotes);
    }
    DepthIsNatural(quotes, i);
  }

  lemma DepthIsNatural(quotes: seq<Quote>, i: int)
    requires 0 <= i < |quotes|
    ensures 0 <= Depth(quotes, i)
    decreases i
  {
  }

  // --------------------------------------------------------------------------
  // Stale reads
  // --------------------------------------------------------------------------

  /** A row read live and still a live leaf later has not changed at all in between. */
  lemma LiveRowIsUnchanged(before: Db, now: Db, i: int)
    requires Evolves(before, now) && 0 <= i < |before.quotes|
    requires IsLive(before.quotes[i]) && IsLiveLeaf(now.quotes, i)
    ensures now.quotes[i] == before.quotes[i]
  {
    assert RowEvolves(before.quotes[i], now.quotes[i]);
  }

  /**
   Accepting on a stale read is safe. Whatever ran since the read, an accept that commits finds the
   row it read, so the amount and the turn it checked are still right; and it takes a request nobody
   holds, for the inspector of that row.
   */
  lemma {:induction false} AcceptIsSafeOnStaleReads(steps: seq<Step>, i: int, now: int)
    requires 0 <= i < |After(steps).calls|
    requires After(steps).calls[i].action.Accept? && Addressed(After(steps).calls[i], After(steps).db)
    requires Commit(After(steps).calls[i], After(steps).db, now).Committed?
    ensures var s := After(steps);
      var c, after := s.calls[i], Commit(s.calls[i], s.db, now).db;
      && s.db.quotes[c.quote] == c.at.quotes[c.quote]
      && !NotYourTurn(s.db.quotes[c.quote], c.role)
      && s.db.requests[c.request].status == Open && s.db.requests[c.request].inspector == None
      && after.requests[c.request].status == Agreed
      && after.requests[c.request].inspector == Some(after.quotes[c.quote].inspector)
      && after.requests[c.request].terms ==
           Some(AgreeTerms(s.db.requests[c.request].payer, FinalAmount(s.db.quotes[c.quote])))
      && after.quotes[c.quote] ==
           s.db.quotes[c.quote].(status := Accepted, amount := FinalAmount(s.db.quotes[c.quote]))
  {
    RunsAreSound(steps);
    var s := After(steps);
    var c := s.calls[i];
    var readAt :| Admit(c, readAt) == None;
    LiveRowIsUnchanged(c.at, s.db, c.quote);
  }

  // --------------------------------------------------------------------------
  // Negotiation terminates
  // --------------------------------------------------------------------------

  /** How many more transactions this row can still see. */
  function Effort(quotes: seq<Quote>, i: int): int
    requires 0 <= i < |quotes|
  {
    match quotes[i].status
    case Pending => 7
    case Selected => 6
    case Countered => if HasChild(quotes, i) then 0 else 6 - Depth(quotes, i)
    case Accepted => 1
    case _ => 0
  }

  function TotalEffort(quotes: seq<Quote>, n: int): int
    requires 0 <= n <= |quotes|
    decreases n
  {
    if n == 0 then 0 else TotalEffort(quotes, n - 1) + Effort(quotes, n - 1)
  }

  /** If no row's effort rises, the sum does not; if row k's falls by d, so does the sum. */
  lemma {:induction false} EffortFalls(a: seq<Quote>, b: seq<Quote>, n: int, k: int, d: int)
    requires 0 <= n <= |a| && n <= |b| && 0 <= d
    requires forall i :: 0 <= i < n && i != k ==> Effort(b, i) <= Effort(a, i)
    requires 0 <= k < n ==> Effort(b, k) <= Effort(a, k) - d
    ensures TotalEffort(b, n) <= TotalEffort(a, n) - (if 0 <= k < n then d else 0)
    decreases n
  {
    if n != 0 {
      EffortFalls(a, b, n - 1, k, d);
    }
  }

  lemma EffortIsNatural(quotes: seq<Quote>, n: int)
    requires Chains(quotes) && 0 <= n <= |quotes|
    ensures 0 <= TotalEffort(quotes, n)
    decreases n
  {
    if n != 0 {
      EffortIsNatural(quotes, n - 1);
      assert Depth(quotes, n - 1) <= MAX_COUNTER_ROUNDS;
    }
  }

  /** Rows that keep or close their status, or gain a child, ask for no more effort. */
  lemma NoMoreEffort(a: seq<Quote>, b: seq<Quote>, i: int)
    requires Chains(a) && SameLinks(a, b) && 0 <= i < |a|
    requires b[i].status == a[i].status || IsClosed(b[i].status)
    ensures Effort(b, i) <= Effort(a, i)
  {
    assert Depth(a, i) <= MAX_COUNTER_ROUNDS;
    ChildrenKept(a, b, i);
    DepthKept(a, b, i);
  }

  lemma ChangingOneRow(a: seq<Quote>, b: seq<Quote>, k: int)
    requires Chains(a) && |a| == |b| && SameLinks(a, b) && 0 <= k < |a|
    requires forall i :: 0 <= i < |a| && i != k ==> a[i] == b[i]
    requires Effort(b, k) < Effort(a, k)
    ensures TotalEffort(b, |b|) < TotalEffort(a, |a|)
  {
    forall i | 0 <= i < |a| && i != k ensures Effort(b, i) <= Effort(a, i) {
      NoMoreEffort(a, b, i);
    }
    EffortFalls(a, b, |a|, k, 1);
  }

  /** Every transaction on a row that is not closed brings the negotiation closer to its end. */
  lemma CommitCostsEffort(c: Call, db: Db, now: int)
    requires Chains(db.quotes) && Addressed(c, db) && Commit(c, db, now).Committed?
    requires !c.action.Submit? && !IsClosed(db.quotes[c.quote].status)
    ensures var after := Commit(c, db, now).db.quotes;
      TotalEffort(after, |after|) < TotalEffort(db.quotes, |db.quotes|)
  {
    var a, b, k := db.quotes, Commit(c, db, now).db.quotes, c.quote;
    assert Depth(a, k) <= MAX_COUNTER_ROUNDS && RowOk(a, k);
    if c.action.Counter? {
      CounterCostsEffort(a, b, k, b[|a|]);
    } else {
      ChangingOneRow(a, b, k);
    }
  }

  /** The countered row is spent, and its child has one round less. */
  lemma CounterCostsEffort(a: seq<Quote>, b: seq<Quote>, k: int, q: Quote)
    requires Chains(a) && IsLiveLeaf(a, k) && Depth(a, k) < MAX_COUNTER_ROUNDS
    requires b == SetStatus(a, k, Countered) + [q] && q.parent == Some(k) && q.status == Countered
    ensures TotalEffort(b, |b|) < TotalEffort(a, |a|)
  {
    assert b[|a|].parent == Some(k);
    assert HasChild(b, k);
    NewestHasNoChild(a, b, q, k);
    assert SameLinks(a, b);
    DepthKept(a, b, k);
    DepthIsNatural(a, k);
    forall i | 0 <= i < |a| && i != k ensures Effort(b, i) <= Effort(a, i) {
      NoMoreEffort(a, b, i);
    }
    EffortFalls(a, b, |a|, k, Effort(a, k));
  }

  lemma NewestHasNoChild(a: seq<Quote>, b: seq<Quote>, q: Quote, k: int)
    requires RowsOk(a) && 0 <= k < |a| && b == SetStatus(a, k, Countered) + [q] && q.parent == Some(k)
    ensures !HasChild(b, |a|)
  {
    forall j | 0 <= j < |b| ensures b[j].parent != Some(|a|) {
      if j < |a| {
        assert RowOk(a, j);
      }
    }
  }

  lemma BidAddsSeven(a: seq<Quote>, q: Quote)
    requires Chains(a) && q.status == Pending && q.parent == None
    ensures TotalEffort(a + [q], |a| + 1) <= TotalEffort(a, |a|) + 7
  {
    var b := a + [q];
    forall i | 0 <= i < |a| ensures Effort(b, i) <= Effort(a, i) {
      NoMoreEffort(a, b, i);
    }
    EffortFalls(a, b, |a|, -1, 0);
  }

  lemma EventAddsNoEffort(db: Db, e: Event)
    requires Chains(db.quotes)
    ensures var after := Happen(db, e).quotes;
      TotalEffort(after, |after|) <= TotalEffort(db.quotes, |db.quotes|)
  {
    var a, b := db.quotes, Happen(db, e).quotes;
    forall i | 0 <= i < |a| ensures Effort(b, i) <= Effort(a, i) {
      NoMoreEffort(a, b, i);
    }
    EffortFalls(a, b, |a|, -1, 0);
  }

  /** Only a release can commit on a row that is already closed, and then its read was stale. */
  lemma OnlyAStaleReleaseActsOnAClosedRow(s: Sys, i: int, now: int)
    requires Sound(s) && 0 <= i < |s.calls| && Addressed(s.calls[i], s.db)
    requires Commit(s.calls[i], s.db, now).Committed? && !s.calls[i].action.Submit?
    requires IsClosed(s.db.quotes[s.calls[i].quote].status)
    ensures s.calls[i].action.Withdraw?
    ensures s.calls[i].at.quotes[s.calls[i].quote].status != s.db.quotes[s.calls[i].quote].status
  {
    var c := s.calls[i];
    assert Admitted(c);
    var readAt :| Admit(c, readAt) == None;
  }

  ghost predicate Commits(s: Sys, step: Step) {
    step.Run? && 0 <= step.call < |s.calls| && Addressed(s.calls[step.call], s.db) &&
    Commit(s.calls[step.call], s.db, step.runAt).Committed?
  }

  ghost predicate IsBid(s: Sys, step: Step) {
    Commits(s, step) && s.calls[step.call].action.Submit?
  }

  ghost predicate IsMove(s: Sys, step: Step) {
    Commits(s, step) && !s.calls[step.call].action.Submit? &&
    !IsClosed(s.db.quotes[s.calls[step.call].quote].status)
  }

  ghost function Bids(steps: seq<Step>): int {
    if steps == [] then 0
    else Bids(steps[..|steps| - 1]) + if IsBid(After(steps[..|steps| - 1]), steps[|steps| - 1]) then 1 else 0
  }

  ghost function Moves(steps: seq<Step>): int {
    if steps == [] then 0
    else Moves(steps[..|steps| - 1]) + if IsMove(After(steps[..|steps| - 1]), steps[|steps| - 1]) then 1 else 0
  }

  lemma StepSpendsEffort(s: Sys, step: Step)
    requires Sound(s)
    ensures var a, b := s.db.quotes, Next(s, step).db.quotes;
      TotalEffort(b, |b|) + (if IsMove(s, step) then 1 else 0) <=
      TotalEffort(a, |a|) + (if IsBid(s, step) then 7 else 0)
  {
    match step
    case Read(_, _, _, _, _, _) =>
    case Elsewhere(e) => EventAddsNoEffort(s.db, e);
    case Run(i, now) =>
      if Commits(s, step) {
        var c := s.calls[i];
        var a, b := s.db.quotes, Next(s, step).db.quotes;
        if c.action.Submit? {
          BidAddsSeven(a, b[|a|]);
        } else if IsMove(s, step) {
          CommitCostsEffort(c, s.db, now);
        } else {
          OnlyAStaleReleaseActsOnAClosedRow(s, i, now);
          forall j | 0 <= j < |a| ensures Effort(b, j) <= Effort(a, j) {
            NoMoreEffort(a, b, j);
          }
          EffortFalls(a, b, |a|, -1, 0);
        }
      }
  }

  lemma {:induction false} EffortBudget(steps: seq<Step>)
    ensures var quotes := After(steps).db.quotes;
      Moves(steps) + TotalEffort(quotes, |quotes|) <= 7 * Bids(steps)
  {
    if steps != [] {
      var before := steps[..|steps| - 1];
      EffortBudget(before);
      RunsAreSound(before);
      StepSpendsEffort(After(before), steps[|steps| - 1]);
    }
  }

  /** k submitted bids allow at most 7k transactions on rows not yet closed. */
  lemma {:induction false} OpenRowsAreSpent(steps: seq<Step>)
    ensures Moves(steps) <= 7 * Bids(steps)
  {
    EffortBudget(steps);
    RunsAreSound(steps);
    EffortIsNatural(After(steps).db.quotes, |After(steps).db.quotes|);
  }

  // --------------------------------------------------------------------------
  // Late releases: each call releases once
  // --------------------------------------------------------------------------

  function PendingReleases(calls: seq<Call>): nat {
    if calls == [] then 0
    else PendingReleases(calls[..|calls| - 1]) + if calls[|calls| - 1].action.Withdraw? then 1 else 0
  }

  lemma {:induction false} AnsweringReleases(calls: seq<Call>, i: int)
    requires 0 <= i < |calls|
    ensures PendingReleases(Answered(calls, i)) == PendingReleases(calls) - if calls[i].action.Withdraw? then 1 else 0
  {
    var n, after := |calls| - 1, Answered(calls, i);
    if i == n {
      assert after == calls[..n];
    } else {
      AnsweringReleases(calls[..n], i);
      assert after[..n - 1] == Answered(calls[..n], i);
      assert after[n - 1] == calls[n];
    }
  }

  ghost predicate IsTransaction(s: Sys, step: Step) {
    Commits(s, step) && !s.calls[step.call].action.Submit?
  }

  ghost predicate AdmitsRelease(s: Sys, step: Step) {
    step.Read? && step.action.Withdraw? && Admit(ReadCall(s.db, step), step.readAt) == None
  }

  /** Committed selections, counters, acceptances, rejections, releases and withdrawals. */
  ghost function Transactions(steps: seq<Step>): int {
    if steps == [] then 0
    else Transactions(steps[..|steps| - 1]) + if IsTransaction(After(steps[..|steps| - 1]), steps[|steps| - 1]) then 1 else 0
  }

  /** Releases admitted by their first read. */
  ghost function Releases(steps: seq<Step>): int {
    if steps == [] then 0
    else Releases(steps[..|steps| - 1]) + if AdmitsRelease(After(steps[..|steps| - 1]), steps[|steps| - 1]) then 1 else 0
  }

  /** A transaction on a closed row is a release, and answers its call. */
  lemma LateStepAnswersARelease(s: Sys, step: Step)
    requires Sound(s)
    ensures var t := Next(s, step);
      (if IsTransaction(s, step) && !IsMove(s, step) then 1 else 0) + PendingReleases(t.calls) <=
      PendingReleases(s.calls) + (if AdmitsRelease(s, step) then 1 else 0)
  {
    match step
    case Read(_, _, _, _, _, now) =>
      var c := ReadCall(s.db, step);
      if Admit(c, now) == None {
        assert Next(s, step).calls[..|s.calls|] == s.calls;
      }
    case Elsewhere(_) =>
    case Run(i, now) =>
      if 0 <= i < |s.calls| && Addressed(s.calls[i], s.db) {
        AnsweringReleases(s.calls, i);
        if IsTransaction(s, step) && !IsMove(s, step) {
          OnlyAStaleReleaseActsOnAClosedRow(s, i, now);
        }
      }
  }

  lemma {:induction false} LateReleasesAreCalls(steps: seq<Step>)
    ensures Transactions(steps) - Moves(steps) + PendingReleases(After(steps).calls) <= Releases(steps)
  {
    if steps != [] {
      var before := steps[..|steps| - 1];
      LateReleasesAreCalls(before);
      RunsAreSound(before);
      LateStepAnswersARelease(After(before), steps[|steps| - 1]);
    }
  }

  /** However calls interleave, k submitted bids and r admitted releases allow at most 7k + r transactions. */
  lemma {:induction false} NegotiationTerminates(steps: seq<Step>)
    ensures Moves(steps) <= 7 * Bids(steps)
    ensures Transactions(steps) <= 7 * Bids(steps) + Releases(steps)
  {
    OpenRowsAreSpent(steps);
    LateReleasesAreCalls(steps);
  }
}
