/** Counter-offer chains: what every transaction of every interleaving keeps. */
module InspectionQuoteChains {
  import opened Money
  import opened InspectionQuotes

  predicate IsClosed(s: QuoteStatus) {
    s == Rejected || s == Withdrawn || s == Expired
  }

  /** Who counters a quote: the requester first, then each the other in turn. */
  function NextBy(q: Quote): Role {
    match q.counteredBy case None => Requester case Some(r) => Other(r)
  }

  ghost predicate FollowsUp(parent: Quote, child: Quote) {
    && child.request == parent.request
    && child.inspector == parent.inspector
    && child.counteredBy == Some(NextBy(parent))
    && child.status != Pending && child.status != Selected
  }

  ghost predicate RowOk(quotes: seq<Quote>, i: int)
    requires 0 <= i < |quotes|
  {
    var q := quotes[i];
    && q.counterAmount == None
    && (q.status in {Pending, Selected, Accepted} ==> !HasChild(quotes, i))
    && match q.parent
       case None => q.counteredBy == None && (q.status == Countered ==> HasChild(quotes, i))
       case Some(p) => 0 <= p < i && FollowsUp(quotes[p], q)
  }

  ghost predicate RowsOk(quotes: seq<Quote>) {
    forall i :: 0 <= i < |quotes| ==> RowOk(quotes, i)
  }

  ghost predicate OneChildEach(quotes: seq<Quote>) {
    forall i, j :: 0 <= i < j < |quotes| && quotes[i].parent.Some? ==> quotes[i].parent != quotes[j].parent
  }

  ghost predicate OneLiveLeafEach(quotes: seq<Quote>) {
    forall i, j :: i < j && IsLiveLeaf(quotes, i) && IsLiveLeaf(quotes, j) ==> quotes[i].request != quotes[j].request
  }

  ghost predicate Shallow(quotes: seq<Quote>) {
    forall i :: 0 <= i < |quotes| ==> Depth(quotes, i) <= MAX_COUNTER_ROUNDS
  }

  ghost predicate Chains(quotes: seq<Quote>) {
    RowsOk(quotes) && OneChildEach(quotes) && OneLiveLeafEach(quotes) && Shallow(quotes)
  }

  // --------------------------------------------------------------------------
  // The three ways the table changes
  // --------------------------------------------------------------------------

  ghost predicate SameLink(a: Quote, b: Quote) {
    a.request == b.request && a.inspector == b.inspector && a.parent == b.parent &&
    a.counterAmount == b.counterAmount && a.counteredBy == b.counteredBy
  }

  ghost predicate SameLinks(a: seq<Quote>, b: seq<Quote>) {
    |a| <= |b| && forall i :: 0 <= i < |a| ==> SameLink(a[i], b[i])
  }

  lemma ChildrenKept(a: seq<Quote>, b: seq<Quote>, i: int)
    requires SameLinks(a, b)
    ensures HasChild(a, i) ==> HasChild(b, i)
    ensures |a| == |b| && HasChild(b, i) ==> HasChild(a, i)
  {
    if HasChild(a, i) {
      var j :| 0 <= j < |a| && a[j].parent == Some(i);
      assert b[j].parent == Some(i);
    }
    if |a| == |b| && HasChild(b, i) {
      var j :| 0 <= j < |b| && b[j].parent == Some(i);
      assert a[j].parent == Some(i);
    }
  }

  lemma {:induction false} DepthKept(a: seq<Quote>, b: seq<Quote>, i: int)
    requires SameLinks(a, b) && 0 <= i < |a|
    ensures Depth(a, i) == Depth(b, i)
    decreases i
  {
    assert SameLink(a[i], b[i]);
    match a[i].parent
    case None =>
    case Some(p) => if 0 <= p < i { DepthKept(a, b, p); }
  }

  /** Row k of b may be picked up; every other row keeps its status or is closed. */
  ghost predicate Relabels(a: seq<Quote>, b: seq<Quote>, k: int) {
    && |a| == |b| && SameLinks(a, b)
    && (forall i :: 0 <= i < |a| && i != k ==> b[i].status == a[i].status || IsClosed(b[i].status))
    && (0 <= k < |a| ==>
         || b[k].status == a[k].status || IsClosed(b[k].status)
         || (b[k].status == Accepted && !HasChild(a, k))
         || (b[k].status == Selected && a[k].status == Pending && !HasCompetitor(a, a[k].request, k)))
  }

  lemma RelabellingKeepsChains(a: seq<Quote>, b: seq<Quote>, k: int)
    requires Chains(a) && Relabels(a, b, k)
    ensures Chains(b)
  {
    forall i | 0 <= i < |b| ensures RowOk(b, i) && Depth(b, i) <= MAX_COUNTER_ROUNDS {
      assert RowOk(a, i);
      assert SameLink(a[i], b[i]);
      ChildrenKept(a, b, i);
      DepthKept(a, b, i);
      if a[i].parent.Some? {
        assert SameLink(a[a[i].parent.value], b[a[i].parent.value]);
      }
    }
    forall i, j | 0 <= i < j < |b| && b[i].parent.Some? ensures b[i].parent != b[j].parent {
      assert SameLink(a[i], b[i]) && SameLink(a[j], b[j]);
    }
    forall i, j | i < j && IsLiveLeaf(b, i) && IsLiveLeaf(b, j) ensures b[i].request != b[j].request {
      assert SameLink(a[i], b[i]) && SameLink(a[j], b[j]);
      ChildrenKept(a, b, i);
      ChildrenKept(a, b, j);
      assert IsLeaf(a, i) && IsLeaf(a, j);
    }
  }

  lemma AppendedChild(a: seq<Quote>, q: Quote, i: int)
    ensures HasChild(a + [q], i) <==> HasChild(a, i) || q.parent == Some(i)
  {
    var b := a + [q];
    if HasChild(a, i) {
      var j :| 0 <= j < |a| && a[j].parent == Some(i);
      assert b[j].parent == Some(i);
    }
    if q.parent == Some(i) {
      assert b[|a|].parent == Some(i);
    }
  }

  lemma NobodyRefersAhead(quotes: seq<Quote>, i: int)
    requires RowsOk(quotes) && |quotes| <= i
    ensures !HasChild(quotes, i)
  {
    forall j | 0 <= j < |quotes| ensures quotes[j].parent != Some(i) {
      assert RowOk(quotes, j);
    }
  }

  lemma BidKeepsChains(a: seq<Quote>, q: Quote)
    requires Chains(a)
    requires q.parent == None && q.counteredBy == None && q.counterAmount == None && q.status == Pending
    ensures Chains(a + [q])
  {
    var b := a + [q];
    NobodyRefersAhead(a, |a|);
    forall i | 0 <= i < |b| ensures RowOk(b, i) && Depth(b, i) <= MAX_COUNTER_ROUNDS {
      AppendedChild(a, q, i);
      if i < |a| {
        assert RowOk(a, i);
        DepthKept(a, b, i);
      }
    }
    forall i, j | i < j && IsLiveLeaf(b, i) && IsLiveLeaf(b, j) ensures b[i].request != b[j].request {
      AppendedChild(a, q, i);
      AppendedChild(a, q, j);
      assert IsLiveLeaf(a, i) && IsLiveLeaf(a, j);
    }
  }

  /** Counter the live leaf k: it stays as history and its child becomes the only live leaf. */
  lemma CounterKeepsChains(a: seq<Quote>, k: int, q: Quote)
    requires Chains(a) && IsLiveLeaf(a, k)
    requires !HasCompetitor(a, a[k].request, k) && Depth(a, k) < MAX_COUNTER_ROUNDS
    requires q.parent == Some(k) && q.counterAmount == None && q.status == Countered
    requires q.request == a[k].request && q.inspector == a[k].inspector && q.counteredBy == Some(NextBy(a[k]))
    ensures Chains(SetStatus(a, k, Countered) + [q])
  {
    var m := SetStatus(a, k, Countered);
    var b := m + [q];
    assert SameLinks(a, m);
    NobodyRefersAhead(a, |a|);
    forall i | 0 <= i < |b| ensures RowOk(b, i) && Depth(b, i) <= MAX_COUNTER_ROUNDS {
      ChildrenKept(a, m, i);
      AppendedChild(m, q, i);
      if i < |a| {
        assert RowOk(a, i);
        DepthKept(a, b, i);
      } else {
        DepthKept(a, b, k);
        ChildrenKept(a, m, |a|);
      }
    }
    forall i, j | 0 <= i < j < |b| && b[i].parent.Some? ensures b[i].parent != b[j].parent {
      assert a[i].parent != Some(k) by {
        assert !HasChild(a, k);
      }
    }
    forall i, j | i < j && IsLiveLeaf(b, i) && IsLiveLeaf(b, j) ensures b[i].request != b[j].request {
      AppendedChild(m, q, i);
      AppendedChild(m, q, j);
      ChildrenKept(a, m, i);
      ChildrenKept(a, m, j);
      assert i != k && j != k;
      assert IsLiveLeaf(a, i);
      if j < |a| {
        assert IsLiveLeaf(a, j);
      }
    }
  }

  // --------------------------------------------------------------------------
  // Every step keeps the chains
  // --------------------------------------------------------------------------

  lemma TurnIsNextBy(quotes: seq<Quote>, i: int, role: Role)
    requires RowsOk(quotes) && IsLiveLeaf(quotes, i) && !NotYourTurn(quotes[i], role)
    ensures role == NextBy(quotes[i])
  {
    assert RowOk(quotes, i);
    if quotes[i].parent.Some? {
      assert FollowsUp(quotes[quotes[i].parent.value], quotes[i]);
    }
  }

  lemma CommitKeepsChains(c: Call, db: Db, now: int)
    requires Chains(db.quotes) && Addressed(c, db) && Commit(c, db, now).Committed?
    requires !c.action.Submit? ==> db.quotes[c.quote].request == c.request
    ensures Chains(Commit(c, db, now).db.quotes)
  {
    var a, b := db.quotes, Commit(c, db, now).db.quotes;
    match c.action
    case Submit(_, _) => BidKeepsChains(a, b[|a|]);
    case Select => RelabellingKeepsChains(a, b, c.quote);
    case Accept => RelabellingKeepsChains(a, b, c.quote);
    case Counter(_, _) =>
      TurnIsNextBy(a, c.quote, c.role);
      CounterKeepsChains(a, c.quote, b[|a|]);
    case Reject => RelabellingKeepsChains(a, b, c.quote);
    case Withdraw(_, _, _) => RelabellingKeepsChains(a, b, c.quote);
    case WithdrawBid => RelabellingKeepsChains(a, b, c.quote);
  }

  lemma EventKeepsChains(db: Db, e: Event)
    requires Chains(db.quotes)
    ensures Chains(Happen(db, e).quotes)
  {
    RelabellingKeepsChains(db.quotes, Happen(db, e).quotes, -1);
  }
}
