# MarketBridge: a model of its protocols, with proofs

MarketBridge is a marketplace back end. Buyers bid on listings, hire inspectors and transporters through
bids of their own, agree a price again after inspection, pay, and receive the goods. Most of its difficulty
is in protocols over shared rows: negotiations in which counter-offers form chains, gates that sit in different
files and only together give an order, compare-and-set claims, and a lease that makes requests idempotent.
This project models those protocols in Dafny and proves what they keep in every run.

Verify everything with `dafny verify dfyconfig.toml`.

## How the model is built

Each protocol has a specification made of values: a state, one function per transaction, and a function from a
list of steps to the state it leads to. Results are about every such list. Where a handler reads before its
transaction, the call carries the state it read, and its transaction may run at any later time on whatever it
then finds. Where the program changes rows one after another, a class with those rows as fields has a method for
each transaction, proved to do what the specification says or to leave everything unchanged. Beside the laws
about runs, a table of rules for each negotiation says independently of the code's own order of checks when a step is
allowed and what it changes. The three desks keep a ghost log of their
steps, so that their rows inherit what is proved of every run.

| file | what it models |
|---|---|
| `Money.dfy`, `Commissions.dfy` | whole cents, rounding, fee shares, commission, the summary totals |
| `InspectionQuotes.dfy`, `InspectionQuoteChains.dfy`, `InspectionQuoteRuns.dfy` | sealed bids and counters for an inspection; chains; stale reads and termination |
| `InspectionAgreements.dfy` | when request and accepted quote agree, and two runs in which they do not |
| `InspectionFees.dfy` | where every price and fee comes from: one party named it, the other took it |
| `InspectionRules.dfy` | who may do what in the negotiation and what it changes, as one table |
| `InspectionDesk.dfy` | the inspection handlers as methods, with the depth loop |
| `CanonicalJson.dfy`, `CanonicalJsonDecoding.dfy` | the stable JSON printer, a decoder that undoes it, the fingerprint |
| `IdempotencyLease.dfy` | the idempotency middleware as a lease protocol |
| `PriceReviews.dfy`, `AgreedPrices.dfy`, `PriceRules.dfy` | price proposals after inspection and the buyer's decision; who named the price; the table of rules |
| `OrderRun.dfy`, `OrderRunSafety.dfy`, `OrderRunWitness.dfy`, `OrderRunLimits.dfy`, `OrderRules.dfy`, `OrderDesk.dfy` | one order from inspection to receipt, with its trace of events; what its guards do not hold back; the table of rules |
| `Offers.dfy`, `OfferSafety.dfy`, `OfferPrices.dfy`, `OfferRules.dfy`, `OfferDesk.dfy` | offers on a listing, the exclusive slot, the order an acceptance makes, who named its price; the table of rules |
| `Trucks.dfy` | own trucks, claimed and released |
| `Checkout.dfy` | opening a provider checkout |
| `BoostedListings.dfy` | boost ranking and paging of the listing search |

## What is assumed

- Every database transaction, and every single guarded update outside one, is one atomic step. The look-ups for a
  competing live quote, for an open review and for a live order take no lock of their own and rely on this.
- SHA-256 is injective: hashes stand for the text that was hashed.
- Money is whole cents and quantities are real numbers; no floating-point error is modelled. Decimal columns round
  to the nearest cent.
- A number in a JSON body is the text it prints to, so negative zero is the number 0. A number too large for a
  double is kept apart.
- Users, roles and ownership are parameters; time is a number passed to a step. Where only the outcome of a clock
  or of an upload check matters, it is a parameter of the step.
- The course of an order assumes goods listings (agricultural or product) and no steps by an administrator
  other than resolving disputes.

## What the proofs found

- A release that read a selected quote may withdraw it after it was accepted, and a bid may be selected after the
  agreement (`backend/src/routes/inspectionQuotes.js:434-451,929-939`). `AgreementsKeptIff` gives the missing guard.
- The seller's counter does not check that the offer is a leaf (`backend/src/middleware/offers.js:1616-1691`).
  Promotion, after an expiry as after the cancellation of an unpaid order, does not look for a live negotiation
  (`backend/src/services/orderCancellationService.js:29-128,298-314`). The cancellation of a later order counts
  waiting and countered offers but not selected ones before it opens the listing
  (`backend/src/services/inventoryService.js:156-175`). `ExclusiveKeptIff` gives all the guards, and each failure
  has its run; the last three need no counter, only two selected bids of one buyer, which the look-up for a
  duplicate bid allows because it is made before the transaction that stores the bid. The mounted routes call another version of these actions, whose counter has
  the leaf check (`backend/src/routes/offerHandlers/actions/counter.js:60-71`).
- A promoted buyer who accepts his own bid gets an order that the seller never took up.
- A job may be marked delivered again, and a stale cancellation may be repeated; both free a truck that is at work
  by then (`backend/src/routes/transport.js:1114,1211-1226`).
- The loading report belongs to the job's row, which is used again when transport is arranged anew, so a second
  hired truck can never be approved after the first was (`backend/src/routes/transport.js:594-612,1001-1010`).
  `SecondTruckIsStuck` is the run, `TruckCanBeApprovedIff` the exact condition; such an order can neither pay for
  its goods nor have them picked up as long as its transport is hired.
- Receipt can be confirmed while a dispute is open (`backend/src/routes/orderLifecycle.js:346-358`).
  `ReceiptOverridesDispute` is the run; by `DisputeEndsIff` this needs a delivered job, and before delivery only a
  resolution ends a dispute.
- The BUY branch of buyer-decision can never succeed (`backend/src/routes/orderLifecycle.js:133-160`).
- With more boosted listings than a page holds, the surplus is on no page (`backend/src/routes/listings.js:458-491`).
- Where code and its own description differ the model follows the code: the check of the decision deadline at
  `backend/src/routes/orderLifecycle.js:130` reads a field its query does not select and never fires; a cancellation
  request writes `expiresAt` (`backend/src/routes/orderPriceReviews.js:112`), a column that the review table in
  `backend/prisma/schema.prisma:2255-2287` does not have, and that deadline is not modelled.

## Model

| member | source | states |
|---|---|---|
| `InspectionQuoteRuns.AcceptIsSafeOnStaleReads` | backend/src/routes/inspectionQuotes.js:485-553 | Over every interleaving: an accept that commits finds the very row it read, so amount and turn are still right; it claims an open request nobody holds, for that row's inspector, on terms computed from that row |
| `InspectionQuoteRuns.LiveRowIsUnchanged` | backend/src/routes/inspectionQuotes.js:500-508 | A quote read live and later still a live leaf has not changed in between, whatever ran |
| `InspectionQuoteRuns.ChainsInEveryRun` | backend/src/routes/inspectionQuotes.js:93-109 | In every reachable state: one live leaf a request, one child a quote, one inspector a chain, counters by turns, depth at most 4, and the depth loop exact |
| `InspectionQuoteRuns.RunsAreSound` | backend/src/routes/inspectionQuotes.js:434-451 | Every run of reads, transactions and other events keeps the chain invariants, and the rows every pending call has read only ever move forwards |
| `InspectionQuoteChains.CommitKeepsChains` | backend/src/routes/inspectionQuotes.js:643-698 | Each handler's transaction, on whatever tables it finds, keeps one live leaf, one child, alternating turns and the depth cap |
| `InspectionQuoteChains.CounterKeepsChains` | backend/src/routes/inspectionQuotes.js:659-698 | Countering a live leaf without competitor and under the cap makes its child the only live leaf of the request |
| `InspectionQuoteChains.EventKeepsChains` | backend/src/services/inspectionLapseService.js:67-94 | Confirmation, start, report, cancellation, lapse, no-show and order cancellation keep the chains |
| `InspectionQuoteRuns.CommitEvolves` | backend/src/routes/inspectionQuotes.js:505-547 | Every transaction moves statuses only forwards and never rewrites an amount, a link or a turn of a row that stays live |
| `InspectionQuoteRuns.NegotiationTerminates` | backend/src/routes/inspectionQuotes.js:670-698 | Over every interleaving, k submitted bids allow at most 7k transactions on rows not yet closed; with r releases admitted by their first read, at most 7k + r committed selections, counters, acceptances, rejections, releases and withdrawals in all |
| `InspectionQuoteRuns.CommitCostsEffort` | backend/src/routes/inspectionQuotes.js:643-698 | A measure on statuses and remaining rounds strictly falls with every transaction on a row that is not closed |
| `InspectionQuoteRuns.OnlyAStaleReleaseActsOnAClosedRow` | backend/src/routes/inspectionQuotes.js:912-939 | The only transaction that can commit on a closed row is a release whose read was stale |
| `InspectionAgreements.AgreementsKeptIff` | backend/src/routes/inspectionQuotes.js:867-959 | However stale its read, a transaction keeps "engaged means one accepted quote, its inspector, its fee, no live leaf" exactly when the missing guard holds; only select and the two releases can fail it |
| `InspectionAgreements.UndisturbedIsHarmless` | backend/src/routes/inspectionQuotes.js:823-841 | A handler whose two rows nobody changed since it read them satisfies that guard |
| `InspectionAgreements.AgreedRequestsAreConsistent` | backend/src/routes/inspectionQuotes.js:514-553 | In every run of undisturbed handlers an accepted request has no live leaf, exactly one accepted quote from its inspector for the agreed fee, shares that sum to the fee and are billed to the payer, and locked terms equal to the agreed ones |
| `InspectionAgreements.AgreementsInHarmlessRuns` | backend/src/routes/inspectionQuotes.js:941-959 | Agreement consistency is kept over whole interleaved runs as long as each committing step meets the missing guard |
| `InspectionAgreements.AcceptMakesTheDeal` | backend/src/routes/inspectionQuotes.js:514-546 | After an accept the request's one accepted quote is the one taken, with the request's inspector and fee |
| `InspectionAgreements.EventKeepsAgreements` | backend/src/routes/inspections.js:612-640 | Seller confirmation locks the agreed terms; confirmation, start, report, cancel, lapse, no-show, stall and order cancellation keep the agreement consistent |
| `InspectionAgreements.LateReleaseLosesTheQuote` | backend/src/routes/inspectionQuotes.js:936-964 | A run in which a release that read a selected quote withdraws it after it was accepted: an agreed request without its quote |
| `InspectionAgreements.LateSelectReopensBargaining` | backend/src/routes/inspectionQuotes.js:434-451 | A run in which a bid is selected after the agreement: an agreed request with a live negotiation |
| `InspectionFees.FeesAreBilateral` | backend/src/routes/inspectionQuotes.js:485-553 | Over every interleaving: the fee of agreed and of locked terms was named for that request by a bid or a counter of one party, and afterwards accepted by the other; it is billed to whoever the request says |
| `InspectionFees.PricesWereNamed` | backend/src/routes/inspectionQuotes.js:670-698 | Every amount in the quote table was named by the party its row says: the bidding inspector, or whoever countered |
| `InspectionFees.CounterAddsTheOffer` | backend/src/routes/inspectionQuotes.js:670-698 | A counter leaves everything as it was but the answered quote, now countered, and one new quote at the offered price, until the offered time, by the side that offered, for the same request and inspector |
| `InspectionFees.SubmitAddsTheBid` | backend/src/routes/inspectionQuotes.js:267-280 | A bid leaves everything as it was and adds one waiting quote at its price, for the one who bids |
| `InspectionFees.AcceptIsBilateral` | backend/src/routes/inspectionQuotes.js:514-553 | However late it commits, an accept agrees a fee that the other party had named before the accepting party read it |
| `InspectionRules.AgreementIsInReach` | backend/src/routes/inspectionQuotes.js:472-553 | However a run got there: while a quote is in negotiation and in time on an open, free request, the side in turn can close the deal at once, with that inspector at the price on the table |
| `InspectionRules.AdmittedIff` | backend/src/routes/inspectionQuotes.js:421-433 | A call is admitted exactly when its rows are there and not frozen and right, stage, turn and deadline allow it, as one table for all seven actions |
| `InspectionRules.RefusalNamesTheReason` | backend/src/routes/inspectionQuotes.js:485-500 | 404 means missing rows, 403 a missing right, 400 a wrong stage, each exactly |
| `InspectionRules.CommitsIff` | backend/src/routes/inspectionQuotes.js:643-668 | A transaction commits exactly when leaf, stage, turn, deadline, competitors and depth still allow it on the rows as they are by then; every refusal is a conflict |
| `InspectionRules.CommitChanges` | backend/src/routes/inspectionQuotes.js:936-965 | A committed answer changes its own quote and at most its own request, field by field as the table says |
| `InspectionRules.EventChanges` | backend/src/routes/inspections.js:612-640 | Each event takes place exactly in the states the table gives, changes its own request so, closes exactly the quotes the table gives, and touches no other row |
| `InspectionDesk.CountCounterDepth` | backend/src/routes/inspectionQuotes.js:127-142 | The loop returns the number of counters that lead to a quote, and fifty from fifty on |
| `InspectionDesk.ParentsPrecedeInEveryRun` | backend/src/routes/inspectionQuotes.js:127-142 | What the depth loop needs of the parent links holds in every reachable state |
| `InspectionDesk.Desk.Submit` | backend/src/routes/inspectionQuotes.js:267-280 | The bid transaction appends exactly one pending row, at the price bid, or is refused without effect |
| `InspectionDesk.Desk.Select` | backend/src/routes/inspectionQuotes.js:434-451 | Selecting checks leaf, status, expiry and competitors and changes only the chosen row |
| `InspectionDesk.Desk.Accept` | backend/src/routes/inspectionQuotes.js:502-553 | Accepting claims the request and marks the quote, both or neither |
| `InspectionDesk.Desk.Claim` | backend/src/routes/inspectionQuotes.js:514-540 | The guarded claim succeeds exactly on an open, unassigned request and then writes the inspector and terms for that fee, billed to whoever the request says |
| `InspectionDesk.Desk.Counter` | backend/src/routes/inspectionQuotes.js:643-698 | Countering relabels the leaf and appends a counter at the price offered, by the side that offered it, under the depth cap; or it is refused without effect |
| `InspectionDesk.Desk.Reject` | backend/src/routes/inspectionQuotes.js:768-779 | Rejecting closes a live leaf only |
| `InspectionDesk.Desk.Withdraw` | backend/src/routes/inspectionQuotes.js:867-965 | Releasing withdraws the quote and, for an accepted one, reopens the request with all its terms cleared |
| `InspectionDesk.Desk.WithdrawBid` | backend/src/routes/inspectionQuotes.js:1051-1102 | A waiting bid is withdrawn only while it is a pending leaf |
| `InspectionDesk.Desk.Close` | backend/src/services/inspectionLapseService.js:86-89 | The loop that closes quotes closes every matching quote of the request and no other |
| `InspectionDesk.Desk.SellerConfirm` | backend/src/routes/inspections.js:580-641 | Seller confirmation sets the mark and locks the agreed fee, billed to whoever the request says |
| `InspectionDesk.Desk.SubmitReport` | backend/src/routes/InspectionEvidence.js:321-369 | Report and completion happen together or not at all |
| `InspectionDesk.Desk.CancelInspection` | backend/src/routes/inspections.js:304-311 | Cancelling clears inspector and terms and expires the open bids |
| `InspectionDesk.Desk.ChainsAreInOrder` | backend/src/routes/inspectionQuotes.js:93-109 | After any calls at the desk, in any interleaving, the chain rules hold and a request has one live leaf |
| `InspectionDesk.Desk.AgreementsAreInOrder` | backend/src/routes/inspectionQuotes.js:514-553 | And while every transaction met the missing guard, requests and accepted quotes agree |
| `InspectionDesk.Desk.Serve` | backend/src/routes/inspectionQuotes.js:485-553 | A request served without another in between is refused without effect or does its transaction, and agreements hold after any number of these |
| `InspectionDesk.PendingCallsAreAddressed` | backend/src/routes/inspectionQuotes.js:434-451 | The rows an admitted call has read are still there when its transaction runs, in every run |
| `Money.SharesSumToFee` | backend/src/routes/inspectionQuotes.js:524-525 | Whoever is to pay bears the whole fee and the other nothing; a split sums to the fee with the odd cent on the buyer's side |
| `Money.HalfUpIsRoundedHalf` | backend/src/routes/inspections.js:630-631 | In whole cents the split's rounding is half the fee, rounded up |
| `Commissions.CommissionConserves` | backend/src/config/commissions.js:44-64 | Commission and net sum to the amount, and 0 <= commission <= amount |
| `Commissions.CommissionIsMonotone` | backend/src/config/commissions.js:44-64 | A larger amount pays no smaller commission and leaves no smaller net |
| `Commissions.ListedTypesPayTheirRate` | backend/src/config/commissions.js:36-52 | A listed type pays its listed share to the nearest cent, one that is not listed nothing |
| `Commissions.EnvRate` | backend/src/config/commissions.js:13-34 | A percentage from 0 to 100 is used as it is, anything else gives the default; the rate is a fraction between 0 and 1 |
| `Commissions.Summarize` | backend/src/routes/payments.js:2286-2345 | The loop's per-type totals and grand totals are the sums over the payments, with an entry for exactly the types that occur |
| `Commissions.TypesAddUpToTotals` | backend/src/routes/payments.js:2300-2345 | Adding byType over all types gives the grand totals: no payment is lost or counted twice |
| `Commissions.RoundingErrorIsBounded` | backend/src/routes/payments.js:2316-2322 | Total commission is within half a cent per payment of what the exact rates would give |
| `CanonicalJsonDecoding.DecoderUndoesStringify` | backend/src/middleware/idempotency.js:16-20 | A decoder applied to the printed body and anything behind it gives back the tree, fields in key order, and the rest |
| `CanonicalJsonDecoding.PrintsEquallyIffSameTree` | backend/src/middleware/idempotency.js:16-20 | Two bodies print equally exactly when they are the same tree up to object key order |
| `CanonicalJsonDecoding.FingerprintIdentifiesTheRequest` | backend/src/middleware/idempotency.js:22-24 | On one route, and between routes that hold no colon, fingerprints agree exactly for the same verb, route and tree |
| `CanonicalJsonDecoding.FingerprintTellsBodiesApart` | backend/src/middleware/idempotency.js:22-24 | Bodies that are not falsy are told apart exactly as trees; a missing or falsy body counts as the empty object |
| `CanonicalJsonDecoding.TooLargePrintsAsNull` | backend/src/middleware/idempotency.js:16-18 | The exception among parsed bodies: a number too large for a double prints as null |
| `CanonicalJsonDecoding.CharsRoundTrip` | backend/src/middleware/idempotency.js:17-19 | Decoding an escaped string, with control characters and lone surrogates, gives back its code units |
| `CanonicalJsonDecoding.RawRoundTrip` | backend/src/middleware/idempotency.js:16-20 | The decoder inverts the printing of every tree, whatever text follows |
| `CanonicalJson.StringifyIsRawCanon` | backend/src/middleware/idempotency.js:19-19 | Printing in key order is printing the tree with its fields put in key order throughout |
| `CanonicalJson.SameTreeIffSameCanon` | backend/src/middleware/idempotency.js:19-19 | Trees agree field by field, both ways, exactly when their key-ordered forms are equal |
| `CanonicalJson.OrderedFieldsAreTheirLookups` | backend/src/middleware/idempotency.js:19-19 | A key-ordered list of fields is determined by its lookups |
| `IdempotencyLease.OneHolderAndOneSuccess` | backend/src/middleware/idempotency.js:48-117 | If every handler writes back before its lease ends or never does, every interleaving has at most one unexpired lease and at most one success a key, and never both |
| `IdempotencyLease.ReplaysComeFromTheSuccess` | backend/src/middleware/idempotency.js:62-74 | Every replay carries the status of the one execution that succeeded and its very body, or an empty object where it stored none, for the same fingerprint |
| `IdempotencyLease.LaterCallsReplayOrAreRefused` | backend/src/middleware/idempotency.js:55-74 | After a success no call creates a record, and one that finds the record repeats its status and body if its fingerprint is the same and is refused otherwise |
| `IdempotencyLease.FinderIsTold` | backend/src/middleware/idempotency.js:62-87 | A found record with another fingerprint or a running lease refuses, a completed one is repeated, and one whose lease is over can be taken over, which changes only its end |
| `IdempotencyLease.WriteBackCompletesOrDeletes` | backend/src/middleware/idempotency.js:96-108 | A status from 200 to 399 completes the record with status and body, any other deletes it, and no other key is touched |
| `IdempotencyLease.CompletedIsStable` | backend/src/middleware/idempotency.js:80-83 | No step changes or removes a completed record |
| `IdempotencyLease.WriteBackKeepsInvIff` | backend/src/middleware/idempotency.js:96-112 | Whenever it comes, a write-back keeps the protocol intact exactly when it does not touch somebody else's completion or lease and finds a record for its own success |
| `IdempotencyLease.OnTimeIsProper` | backend/src/middleware/idempotency.js:48-51 | A write-back before the end of its lease is such a write |
| `IdempotencyLease.TakeOverKeepsInv` | backend/src/middleware/idempotency.js:76-87 | A takeover renews the lease to a later end than any lease before it |
| `IdempotencyLease.LateWriterSucceedsTwice` | backend/src/middleware/idempotency.js:80-105 | A run in which a handler outlives its lease: two executions succeed and the completed record is overwritten |
| `IdempotencyLease.Store.Begin` | backend/src/middleware/idempotency.js:55-90 | Without interference the middleware creates, refuses, replays or takes over exactly as the separate steps do; a completed record answers with its own status and body and stays as it is |
| `IdempotencyLease.Store.Update` | backend/src/middleware/idempotency.js:102-105 | Completing writes the record with that id and no other |
| `IdempotencyLease.Store.Remove` | backend/src/middleware/idempotency.js:107-107 | Deleting removes the record with that id and no other |
| `IdempotencyLease.Interceptor.Persist` | backend/src/middleware/idempotency.js:94-112 | Only the first captured response is written back |
| `IdempotencyLease.Interceptor.Json` | backend/src/middleware/idempotency.js:114-122 | Although json passes through send, the record is written once, with the body given to json |
| `PriceReviews.AgreedPriceIsBilateral` | backend/src/routes/orderPriceReviews.js:274-278 | The decision is BUY exactly when one review and one only was accepted as a price, at the order's price; the BUY branch of buyer-decision is refused in every reachable state |
| `PriceReviews.BuyBranchIsDead` | backend/src/routes/orderLifecycle.js:133-160 | Whenever an agreement exists the decision has already been made, so the BUY branch cannot succeed |
| `PriceReviews.PriceIsFrozen` | backend/src/routes/orderPriceReviews.js:183-183 | After BUY the decision stays and the final price never changes, whatever is still in flight |
| `PriceReviews.ReviewChains` | backend/src/routes/orderPriceReviews.js:187-257 | One review is pending at a time, proposers alternate along parent links, a cancellation request ends accepted or countered |
| `PriceReviews.PriceStaysAboveMinimum` | backend/src/routes/orderPriceReviews.js:136-137 | No reachable final price is more than half a cent below minimum times quantity |
| `PriceReviews.HalfACentIsLost` | backend/src/routes/orderPriceReviews.js:230-231 | The half cent is real: a price at the minimum can be stored below it |
| `PriceReviews.LateProposalIsInert` | backend/src/routes/orderPriceReviews.js:150-155 | A proposal stored after BUY, from an earlier read, can never be answered |
| `PriceReviews.ProposalKeepsInv` | backend/src/routes/orderPriceReviews.js:99-116 | The proposal's transaction, however late, keeps one pending review and the price floor |
| `PriceReviews.ResponseKeepsInv` | backend/src/routes/orderPriceReviews.js:192-278 | Accepting, countering and rejecting keep one pending review, alternation, and the equivalence of BUY and agreement |
| `PriceReviews.Exchange.Claim` | backend/src/routes/orderPriceReviews.js:258-259 | The compare-and-set answers a review only while it is pending |
| `PriceReviews.Exchange.Propose` | backend/src/routes/orderPriceReviews.js:150-163 | The proposal transaction appends one pending review or changes nothing |
| `AgreedPrices.BoughtPriceWasNamedAndTaken` | backend/src/routes/orderPriceReviews.js:183-190 | In every run that decides to buy, the order's price is that of a review which one party named, to the nearest cent, and which the other party accepted |
| `AgreedPrices.ReviewsWereNamed` | backend/src/routes/orderPriceReviews.js:226-257 | Every price under review was named to the nearest cent by the party it is ascribed to, in a proposal or in a counter to the review it answers |
| `AgreedPrices.BargainIsStruck` | backend/src/routes/orderPriceReviews.js:183-257 | A run of proposal, counter and acceptance that decides to buy at the countered price |
| `PriceRules.ProposalIsAdmittedIff` | backend/src/routes/orderPriceReviews.js:85-147 | Who may propose what and when: exactly undecided, reported, unpaid goods orders with nothing pending, at prices over the floor and, for a buyer, not over the order's |
| `PriceRules.ProposalIsStoredIff` | backend/src/routes/orderPriceReviews.js:150-163 | A late proposal is stored exactly while the order runs and nothing is pending, as one pending review at the proposed price to the nearest cent |
| `PriceRules.AnswerIsTakenIff` | backend/src/routes/orderPriceReviews.js:187-257 | A pending review is answered exactly by the other party; a cancellation request cannot be rejected, and a counter must name a new price over the floor |
| `PriceRules.AnswerChanges` | backend/src/routes/orderPriceReviews.js:210-257 | Acceptance sets price and decision, or cancels; rejection only closes; a counter adds one review at the offered price to the nearest cent |
| `PriceRules.DecisionIsTakenIff` | backend/src/routes/orderLifecycle.js:133-160 | In every reachable order the decision can only be to cancel, and exactly while the order is live, reported, undecided and its goods at rest |
| `PriceReviews.Exchange.Answer` | backend/src/routes/orderPriceReviews.js:179-279 | One answer: accept sets price and BUY, or cancels the order; counter appends the child; reject closes; anything else changes nothing |
| `PriceReviews.Exchange.DecideToBuyOrCancel` | backend/src/routes/orderLifecycle.js:83-248 | The buyer's decision: cancelling cancels the order with it; whatever is refused changes nothing |
| `OrderRunSafety.CompletedOrdersRanTheCourse` | backend/src/routes/orderLifecycle.js:326-358 | In every run with hired transport a completed order's trace contains, in order, all eighteen milestones from the accepted quote to the receipt |
| `OrderRunSafety.PaidBeforeWork` | backend/src/routes/transport.js:1069-1084 | In every run: fee paid before the inspection starts, transport paid before the loading report, goods paid and loading approved before pickup, BUY before any transport job |
| `OrderRunSafety.GoodsPaymentsMatchThePrice` | backend/src/routes/payments.js:442-458 | Every goods payment of every run, hired or own truck, inspection required or not, is within a cent of the final price in every later state |
| `OrderRunSafety.BoughtOrdersKeepTheirPrice` | backend/src/routes/orderPriceReviews.js:183-183 | Over the whole order: once bought, the price stays, whatever happens later |
| `OrderRunSafety.OrderPriceIsBilateral` | backend/src/routes/orderPriceReviews.js:274-278 | Over the whole order: BUY exactly with one accepted review, at the order's price, not under the minimum |
| `OrderRunSafety.CommitKeepsFacts` | backend/src/routes/transport.js:1001-1010 | However stale its read, each handler's transaction records an event only after the events it needs |
| `OrderRunSafety.DeedKeepsFacts` | backend/src/routes/disputes.js:268-361 | Payments, quotes, releases, lapses and dispute resolutions that reset services keep what the rows say has happened true |
| `OrderRunSafety.ChainUpTo` | backend/src/routes/transport.js:1108-1172 | Each milestone is preceded by the whole course up to it |
| `OrderRunSafety.NewTruckIsNeverApproved` | backend/src/routes/transport.js:1394-1397 | The loading report outlives its truck: once approved and the truck dropped, no other truck of the order is ever approved |
| `OrderRunLimits.TruckCanBeApprovedIff` | backend/src/routes/transport.js:1001-1010 | In every reachable state, a hired job without approval can be approved by some continuation exactly when the loading report has not been reviewed yet |
| `OrderRunLimits.SecondTruckIsStuck` | backend/src/routes/transport.js:594-612 | A run with hired transport throughout that ends with a second truck taken which no continuation approves |
| `OrderRunLimits.UsedUpReportBlocksTheOrder` | backend/src/routes/transport.js:1069-1084 | From then on, in every later state, no pickup is admitted, and no goods payment while the job is hired |
| `OrderRunLimits.DisputeEndsIff` | backend/src/routes/orderLifecycle.js:346-358 | In every reachable disputed state, a step ends the dispute exactly when it is a resolution or an admitted receipt that runs while the job is delivered |
| `OrderRunLimits.DisputeIsBindingBeforeDelivery` | backend/src/routes/disputes.js:205-220 | Before delivery an open dispute is binding: however long the run goes on, without a resolution the order stays disputed and undelivered |
| `OrderRunLimits.ReceiptOverridesDispute` | backend/src/routes/orderLifecycle.js:346-358 | After delivery it is not: a run with hired transport in which a receipt completes a disputed order that nobody has resolved |
| `OrderRunLimits.ResolutionRestoresTheOrder` | backend/src/routes/disputes.js:370-376 | Over runs: whatever raised a dispute and however long it lasted, a resolution that does not cancel the order leaves it in the status it had before, and touches nothing but the service it cancels |
| `OrderRules.StatusFollowsTheMachine` | backend/src/services/orderStateMachine.js:15-37 | Over runs: whichever service takes the step, the order's status moves only as the state machine allows |
| `OrderRules.AdmittedIff` | backend/src/routes/payments.js:428-540 | Each of the twelve handlers lets its caller through exactly in the states that one table gives: dues paid, seller ready, truck there, loading approved, goods released |
| `OrderRules.CommitsIff` | backend/src/routes/transport.js:1386-1396 | Each handler's transaction goes through exactly when the table's shorter list still holds on the rows as they are by then |
| `OrderRules.CommitChanges` | backend/src/routes/transport.js:1174-1210 | What each committed handler changes and records, field by field, with the order following its transport |
| `OrderRules.DeedFollowsRule` | backend/src/routes/disputes.js:317-374 | Inspection, transport and cancellation by other services happen exactly when the table allows and change exactly what it says |
| `OrderRules.PaymentMoveFollowsRule` | backend/src/services/paymentService.js:1199-1232 | A payment moves only as settlement may move it, in its own purse; paid goods confirm the order and a paid truck is committed, at once or later |
| `OrderRules.ExchangeFollowsRule` | backend/src/services/orderCancellationService.js:130-155 | The price exchange writes price, decision and reviews only; it cancels the order with its open services, and is rolled back where the order can no longer be cancelled |
| `OrderRunWitness.AnotherTruckIsTaken` | backend/src/routes/transport.js:594-612 | The run behind it: a reviewed report, the truck dropped, transport arranged anew, and the new truck taken without approval |
| `OrderRunWitness.CompletedIsReachable` | backend/src/routes/orderLifecycle.js:346-366 | A completed order is reachable with hired transport throughout |
| `OrderDesk.Desk.StartInspection` | backend/src/routes/inspections.js:809-825 | The start transaction moves only the request it read, still accepted, confirmed and on site |
| `OrderDesk.Desk.SubmitReport` | backend/src/routes/InspectionEvidence.js:321-369 | The report transaction completes only the request it read, still in progress |
| `OrderDesk.Desk.CreateTransport` | backend/src/routes/transport.js:574-632 | A job is created, or its cancelled row reset, and a confirmed order moves on |
| `OrderDesk.Desk.ConfirmPickupReady` | backend/src/routes/transport.js:895-896 | The guarded update that marks the goods ready |
| `OrderDesk.Desk.ConfirmTruckArrival` | backend/src/routes/transport.js:942-948 | The guarded update that marks the truck arrived |
| `OrderDesk.Desk.SubmitLoadingReport` | backend/src/routes/transport.js:1386-1412 | One loading report for the job's row |
| `OrderDesk.Desk.ApproveLoadingReport` | backend/src/routes/transport.js:1001-1010 | Approval of job and report together, rolled back if the report is not waiting |
| `OrderDesk.Desk.CreateGoodsPayment` | backend/src/services/paymentService.js:319-343 | A goods payment is appended, rounded to the cent |
| `OrderDesk.Desk.UpdateTransportStatus` | backend/src/routes/transport.js:1174-1220 | The job's status is written unconditionally and the order follows it by allowed moves |
| `OrderDesk.Desk.Transition` | backend/src/services/orderStateMachine.js:57-76 | An order moves only from the expected status along an allowed move |
| `OrderDesk.Desk.RaiseDispute` | backend/src/routes/disputes.js:74-88 | A dispute freezes the order from the status that was read |
| `OrderDesk.Desk.ResolveDispute` | backend/src/routes/disputes.js:317-374 | Resolving puts the order back into the status the dispute froze, with the job abandoned and its marks cleared when transport is the cancelled service; nothing else changes |
| `OrderDesk.Desk.ConfirmReceiptOfGoods` | backend/src/routes/orderLifecycle.js:346-358 | Receipt completes an order whose job is delivered |
| `OrderDesk.Desk.CancelEverything` | backend/src/services/orderCancellationService.js:141-221 | Cancelling an order drops its unfinished inspection and undelivered transport and nothing else |
| `OrderDesk.Desk.CancelOrder` | backend/src/services/orderCancellationService.js:131-221 | An order is cancelled precisely while its status allows it and its goods are not moving, unless it is disputed |
| `OrderDesk.Desk.PricesAreInOrder` | backend/src/routes/payments.js:442-458 | After any calls at the desk, in any interleaving: BUY exactly with one accepted review at the order's price, one pending review, and every goods payment within a cent of the final price |
| `OrderDesk.Desk.CompletedMeansCourse` | backend/src/routes/orderLifecycle.js:326-358 | An order the desk has completed, with hired transport, went through all eighteen milestones in order |
| `OfferSafety.OneLiveOrderPerListing` | backend/src/middleware/offers.js:614-645 | In every run whatever, a listing has at most one order that is neither cancelled nor completed, and every order's total is its unit price times its quantity to the nearest cent, at or above the minimum |
| `OfferSafety.OrdersStartAboveMinimum` | backend/src/middleware/offers.js:584-595 | Every order of every run enters the price exchange no more than half a cent under minimum times quantity |
| `OfferSafety.AcceptanceMakesTheOrder` | backend/src/middleware/offers.js:556-645 | An acceptance takes the price of a current leaf (the bid of a selected offer, the counter amount of a countered one), for its buyer and quantity, within what is available, at a total within half a cent of their product |
| `OfferSafety.PriceIsBilateralIff` | backend/src/middleware/offers.js:968-1093 | The price was put forward by one party and taken up by the other, except exactly when a buyer accepts his own bid that the system promoted |
| `OfferPrices.OrderPricesWereNamed` | backend/src/middleware/offers.js:556-645 | Every order of every run is for the buyer and quantity of a bid of that run, at the price of that bid or of a counter to it, exactly as a step of the run named it |
| `OfferRules.TakenIff` | backend/src/middleware/offers.js:832-936 | In every reachable state a step takes effect exactly when one table of turn, deadline, stock, minimum, slot and live orders allows it |
| `OfferRules.AnswerChanges` | backend/src/middleware/offers.js:1507-1538 | What selecting, countering, releasing, rejecting, withdrawing and expiring change, field by field; the listing opens exactly when no live leaf is left |
| `OfferRules.PromotionFollowsRule` | backend/src/services/orderCancellationService.js:29-116 | Overdue bids expire, the highest and among equals earliest eligible bid enters the negotiation, and without one the listing is free |
| `OfferRules.OrderChanges` | backend/src/services/inventoryService.js:72-182 | Paid goods leave the stock and the last of them end every negotiation; goods that come back never exceed what was listed |
| `OfferSafety.PromotedBuyerNeedsNoSeller` | backend/src/services/orderCancellationService.js:94-116 | A run in which expiry promotes a waiting bid and its buyer makes an order without the seller |
| `OfferSafety.SlotIsExclusive` | backend/src/middleware/offers.js:882-936 | With counters on leaves only, and no promotion (after an expiry or a cancellation) or reopening over a live negotiation, all live leaves belong to one buyer and an active listing has none |
| `OfferSafety.ExclusiveKeptIff` | backend/src/middleware/offers.js:1616-1691 | Every step keeps the slot exclusive exactly when it is careful; only the seller's counter, the promotions after an expiry and after an unpaid order's cancellation, and the reopening after a later cancellation can fail |
| `OfferSafety.CounterKeepsExclusiveIff` | backend/src/middleware/offers.js:1616-1691 | A counter keeps the slot exclusive exactly when the listing is in negotiation and nobody else has a live leaf |
| `OfferSafety.PromotionKeepsExclusiveIff` | backend/src/services/orderCancellationService.js:29-128 | Promotion keeps it exactly when no live leaf of another buyer than the one promoted is left, and none at all if nobody is promoted |
| `OfferSafety.PromotingStepIff` | backend/src/services/orderCancellationService.js:298-314 | The two steps that promote, expiry of a selected offer and cancellation of an unpaid order with its offer withdrawn, keep the slot exclusive exactly under that guard |
| `OfferSafety.ReopeningKeepsExclusiveIff` | backend/src/services/inventoryService.js:135-182 | Cancelling a later order, which gives its quantity back, keeps it exactly when it does not open the listing while a live leaf is left |
| `OfferSafety.PromotionAdmitsTwoBuyers` | backend/src/services/orderCancellationService.js:29-128 | A run without any counter in which promotion after an expiry puts a second buyer into an exclusive slot |
| `OfferSafety.CancellationAdmitsTwoBuyers` | backend/src/services/orderCancellationService.js:298-314 | A run without any counter in which cancelling an unpaid order does the same |
| `OfferSafety.CancellationReopensOverANegotiation` | backend/src/services/inventoryService.js:156-175 | A run without any counter in which cancelling a paid order opens the listing over a selected offer |
| `OfferSafety.OneLookUpSuffices` | backend/src/middleware/offers.js:884-900 | While the slot is exclusive, which live leaf the single look-up returns does not matter |
| `OfferSafety.StaleCounterRevivesOnActive` | backend/src/middleware/offers.js:1616-1691 | A run in which countering a superseded offer leaves a live negotiation on an active listing |
| `OfferSafety.StaleCounterAdmitsTwoBuyers` | backend/src/middleware/offers.js:1616-1691 | A run in which it puts two buyers into the slot |
| `OfferSafety.RunsKeepInv` | backend/src/middleware/offers.js:1187-1207 | In every run a selected offer has no counter amount and no child, and a child keeps its parent's buyer |
| `Offers.BestWaiting` | backend/src/services/orderCancellationService.js:70-84 | The bid promoted is eligible and no eligible bid offers more |
| `OfferDesk.Desk.SelectOffer` | backend/src/middleware/offers.js:832-949 | Selection claims the bid and closes the listing to new ones, or changes nothing |
| `OfferDesk.Desk.AcceptAndCreateOrder` | backend/src/middleware/offers.js:528-645 | Claim and order together, for the offer's buyer and quantity at the product to the nearest cent: a live order rolls the claim back |
| `OfferDesk.Desk.AcceptSelectedOffer` | backend/src/middleware/offers.js:971-979 | The buyer accepts a selected bid at its amount |
| `OfferDesk.Desk.AcceptCounterOffer` | backend/src/middleware/offers.js:1019-1082 | The buyer accepts the seller's counter at its counter amount |
| `OfferDesk.Desk.AcceptBySeller` | backend/src/middleware/offers.js:1261-1338 | The seller accepts a selected bid or the buyer's counter |
| `OfferDesk.Desk.ReCounterByBuyer` | backend/src/middleware/offers.js:1131-1225 | The buyer's counter, on a leaf and by turn |
| `OfferDesk.Desk.CounterBySeller` | backend/src/middleware/offers.js:1616-1709 | The seller's counter, by turn but on any row |
| `OfferDesk.Desk.CloseOffer` | backend/src/middleware/offers.js:1507-1538 | Closing an offer reopens the listing exactly when no live leaf is left |
| `OfferDesk.Desk.ReleaseSilentBuyer` | backend/src/middleware/offers.js:1378-1438 | A release needs a leaf and the buyer's turn |
| `OfferDesk.Desk.RejectByBuyer` | backend/src/middleware/offers.js:1482-1556 | A rejection needs a live leaf |
| `OfferDesk.Desk.WithdrawByBuyer` | backend/src/middleware/offers.js:1482-1556 | A waiting bid is withdrawn only while it is a pending leaf |
| `OfferDesk.Desk.PromoteNextWaitingBuyer` | backend/src/services/orderCancellationService.js:29-128 | The loop expires exactly the overdue waiting bids; then the best one left is selected or the listing reopened |
| `OfferDesk.Desk.ExpireOffer` | backend/src/services/maintenanceService.js:75-95 | Automatic expiry, with promotion decided by what an earlier read said |
| `OfferDesk.Desk.CommitListingQuantity` | backend/src/services/inventoryService.js:72-128 | Payment takes the quantity while the listing is open and has enough, and a listing sold out rejects its open offers |
| `OfferDesk.Desk.ReleaseListingQuantity` | backend/src/services/inventoryService.js:135-182 | The quantity goes back, capped by the listing's own, and the listing opens unless a waiting or countered offer is counted |
| `OfferDesk.Desk.CancelOrder` | backend/src/services/orderCancellationService.js:164-175 | Cancelling withdraws the offer and promotes for an unpaid order, and gives the quantity back for a later one; the order's offer is always there |
| `OfferDesk.Desk.RowsAreInOrder` | backend/src/middleware/offers.js:614-645 | After any actions at the desk there is one live order, orders keep minimum and total, and rows keep their rules |
| `OfferDesk.Desk.SlotIsExclusive` | backend/src/middleware/offers.js:882-936 | And while no action was careless the negotiation is one buyer's and an active listing has none |
| `Trucks.UpdateKeepsExclusiveIff` | backend/src/routes/transport.js:1174-1226 | However late, a status update keeps "an available truck has no active job, no truck has two" exactly when the released truck has no other active job, or the activated job has the truck to itself |
| `Trucks.TrucksAreExclusiveWhenAllFit` | backend/src/routes/transport.js:1174-1226 | In every run, however late its updates come, trucks are exclusive if each update meets that guard when it commits |
| `Trucks.AlwaysSoundIffAllFit` | backend/src/routes/transport.js:1174-1226 | And the guard is exact for runs: trucks are exclusive after every prefix of a run exactly when all its updates meet it |
| `Trucks.TrucksAreExclusive` | backend/src/routes/transport.js:652-720 | In every run whose updates are undisturbed and deliver no job twice, trucks are exclusive |
| `Trucks.ActiveJobKeepsItsTruck` | backend/src/routes/transport.js:1174-1226 | Whatever the step, an active job keeps its truck until an update or a cancellation |
| `Trucks.UndisturbedUpdateFits` | backend/src/routes/transport.js:1108-1116 | An update on an untouched row fits, unless it delivers a delivered job again |
| `Trucks.SecondDeliveryFreesABusyTruck` | backend/src/routes/transport.js:1211-1223 | A run in which the DELIVERED self-transition frees a truck at work, which then gets a second job |
| `Trucks.SecondCancellationFreesABusyTruck` | backend/src/routes/transport.js:1225-1226 | A run in which two requests that both read a job accepted cancel it and free a truck at work |
| `Trucks.TruckYard.ClaimAvailableTruck` | backend/src/routes/transport.js:145-156 | Only an available truck is claimed |
| `Trucks.TruckYard.ReleaseTruck` | backend/src/routes/transport.js:158-164 | Only a busy truck is released |
| `Trucks.TruckYard.ChangeAvailability` | backend/src/routes/transport.js:261-293 | The truck gets the availability asked for and no other changes, unless it would become available with an active job |
| `Trucks.TruckYard.CreateOwnTruckJob` | backend/src/routes/transport.js:652-720 | A job is created only together with the claim of its truck |
| `Trucks.TruckYard.UpdateStatus` | backend/src/routes/transport.js:1174-1226 | The status is written whatever it was; delivery and cancellation release the truck that was read |
| `Checkout.SingleCheckout` | backend/src/routes/payments.js:1235-1339 | In every interleaving a pending payment has nothing in flight, one attempt at most holds the claim, one checkout at most is opened, and a finished attempt's reference is the one stored |
| `Checkout.OnlyOwnClaimIsGivenBack` | backend/src/routes/payments.js:1311-1317 | A provider failure makes a payment pending again only if the failing attempt alone held it |
| `Checkout.OpenedIsForGood` | backend/src/routes/payments.js:1319-1339 | Once a checkout is opened the payment is never pending again |
| `Checkout.RefundIsFinal` | backend/src/services/paymentService.js:1199-1204 | A refunded payment stays refunded, whatever runs afterwards |
| `Checkout.Till.SwapStatus` | backend/src/routes/payments.js:1245-1253 | The compare-and-set reports whether it changed the row |
| `Checkout.Till.Initialize` | backend/src/routes/payments.js:1235-1343 | Alone, an attempt leaves the payment processing with its reference, or exactly as it was |
| `BoostedListings.RankBoosts` | backend/src/routes/listings.js:431-442 | The loop ranks exactly the listings with an eligible ad by the sum of their scores, and names for each an eligible ad that none outscores |
| `BoostedListings.OneAdRanks` | backend/src/routes/listings.js:431-442 | A top-of-category ad counts twice a featured one and a sponsored one least, each only in the searches it applies to |
| `BoostedListings.PagesPartitionIff` | backend/src/routes/listings.js:457-617 | The pages together show every matching listing exactly once if and only if the boosted ones fit on one page |
| `BoostedListings.PagesAreEverything` | backend/src/routes/listings.js:457-592 | While they fit, the pages joined are one list |
| `BoostedListings.EverythingIsOrdered` | backend/src/routes/listings.js:493-497 | That list starts with the boosted listings by falling summed score, then all the others in the order of the query, and loses none |
| `BoostedListings.PageIsWindow` | backend/src/routes/listings.js:550-583 | Each page is the next window of that list |
| `BoostedListings.CrowdedOut` | backend/src/routes/listings.js:458-491 | Otherwise the boosted listing that is one too many is on no page at all |
| `BoostedListings.SortSorts` | backend/src/routes/listings.js:493-497 | Sorting by score orders and rearranges |
| `BoostedListings.SortIsStable` | backend/src/routes/listings.js:493-497 | Boosted listings of equal score keep the order of the query |
| `BoostedListings.PageSizes` | backend/src/routes/listings.js:311-314 | A page holds at most the limit asked for, clamped to one and fifty |

## Left out

- HTTP, validation chains, logging, notices, audit rows, metrics, rate limits: no state the properties depend on.
- The payment provider, object storage, SMS and mail: the provider is a step that settles or fails a payment.
- Administrator overrides, recovery requests, seller edits of a listing, and reopening of bidding by an administrator.
- Pickup by an own truck: truck arrival is refused for own trucks while pickup asks for it, so only an administrator can record it.
- Transport quotes: their negotiation mirrors the inspection quotes; the order sees only that a job is taken or released.
- Payment obligations: the order model lets fee obligations be any list whose paid entries are backed by a paid payment, and leaves out the obligation check when a payment is created; it allows more runs than the program.
- Refunds and payouts: a payment may turn to refunded at any time; who is paid out is not modelled.
- Installment children: the parent payment is settled directly.
- Several inspection requests of one order: one is current at a time; a new one follows a cancelled one, and cancelling the inspection service resets that one instead of looping over all.
- Listing time windows for negotiation and pickup, and the expiry computed for a new counter: an expiry is an input of the step.
- Exclusion of users by role, ownership, standing or earlier cancellations before a bid is stored.
- Market price suggestions: a suggested price is an input of the proposal.
- Evidence, ratings, messages, advertising payments, searches other than the boosted listing page.
- InspectionQuoteRuns.NegotiationTerminates: its bound grows with the releases that are admitted, because a release with a stale read may commit on a closed quote.
- IdempotencyLease.OneHolderAndOneSuccess: counts executions that write their success back; one that dies after its effects is invisible to the middleware too.
- Trucks.TrucksAreExclusiveWhenAllFit: for own-truck jobs; the truck of a hired job is marked busy when its payment is settled, and the order model follows that settlement without the truck.
- Creation of a transport payment: taken only while the job is accepted, as its transaction demands (`backend/src/services/paymentService.js:197-202`), although the route's first check also lets a quoted job through.
- OfferSafety.ReopeningKeepsExclusiveIff: for goods listings; a listing of another category has no quantity and is opened without any count.
- OfferDesk.Desk.CancelOrder: the listing and its offers only; what cancellation does to inspection and transport is in OrderDesk, refunds and notices are left out.
- BoostedListings.PagesPartitionIff: the queries of all pages see the same listings and advertisements.
