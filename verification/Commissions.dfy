/**
 The platform's commission on a payment, and the totals the summary route adds up.
 Amounts are whole cents; a rate is a fraction between 0 and 1.
 */
module Commissions {
  import opened Money

  datatype PaymentType =
    | Marketplace | Transport | Inspector | Digital | Advertising | MarketplaceInstallment

  type Rates = map<PaymentType, real>

  /** A configured percentage counts only when it lies in 0..100; otherwise the default does. */
  function EnvRate(percent: Option<real>, defaultRate: real): (r: real)
    requires 0.0 <= defaultRate <= 1.0
    ensures 0.0 <= r <= 1.0
    ensures percent.Some? && 0.0 <= percent.value <= 100.0 ==> r * 100.0 == percent.value
    ensures percent.None? || percent.value < 0.0 || 100.0 < percent.value ==> r == defaultRate
  {
    match percent
    case Some(v) => if 0.0 <= v <= 100.0 then v / 100.0 else defaultRate
    case None => defaultRate
  }

  ghost predicate ValidRates(rates: Rates) {
    forall t :: t in rates ==> 0.0 <= rates[t] <= 1.0
  }

  function RateOf(rates: Rates, t: PaymentType): real {
    if t in rates then rates[t] else 0.0
  }

  /** The rounded share `rate` takes of a positive amount. */
  function Charge(amount: int, rate: real): int {
    if amount <= 0 then 0 else Round(amount as real * rate)
  }

  /** commissionFor: nothing on an amount that is missing, not a number or not positive. */
  function CommissionFor(rates: Rates, t: PaymentType, amount: Option<int>): int {
    match amount
    case None => 0
    case Some(a) => Charge(a, RateOf(rates, t))
  }

  /** netFor, for an amount that is a number. */
  function NetFor(rates: Rates, t: PaymentType, amount: int): int {
    Round((amount - CommissionFor(rates, t, Some(amount))) as real)
  }

  lemma ScaledStaysInside(a: real, rate: real)
    requires 0.0 <= a && 0.0 <= rate <= 1.0
    ensures 0.0 <= a * rate <= a
  {
  }

  lemma ScalingIsMonotone(a: real, b: real, rate: real)
    requires a <= b && 0.0 <= rate
    ensures a * rate <= b * rate
  {
    assert 0.0 <= (b - a) * rate;
  }

  lemma RoundOfWhole(n: int)
    ensures Round(n as real) == n
  {
  }

  lemma ChargeStaysInside(amount: int, rate: real)
    requires 0.0 <= rate <= 1.0
    ensures 0 <= Charge(amount, rate)
    ensures 0 <= amount ==> Charge(amount, rate) <= amount
  {
    if 0 < amount {
      ScaledStaysInside(amount as real, rate);
      var exact := amount as real * rate;
      RoundStaysInside(exact, amount);
    }
  }

  /** A larger amount is charged no less, and leaves no less: the charge grows no faster than it. */
  lemma ChargeGrowsWithAmount(a: int, b: int, rate: real)
    requires 0 < a <= b && 0.0 <= rate <= 1.0
    ensures Charge(a, rate) <= Charge(b, rate) <= Charge(a, rate) + (b - a)
  {
    var x, y, d := a as real * rate, b as real * rate, (b - a) as real;
    ScaledStaysInside(d, rate);
    assert y == x + d * rate by {
      assert b as real == a as real + d;
    }
    RoundGrowsWithin(x, y, b - a);
  }

  lemma RoundGrowsWithin(x: real, y: real, n: int)
    requires x <= y <= x + n as real
    ensures Round(x) <= Round(y) <= Round(x) + n
  {
  }

  /** Commission and net add up to the amount, and the commission never exceeds it. */
  lemma CommissionConserves(rates: Rates, t: PaymentType, amount: int)
    requires ValidRates(rates)
    ensures CommissionFor(rates, t, Some(amount)) + NetFor(rates, t, amount) == amount
    ensures 0 <= CommissionFor(rates, t, Some(amount))
    ensures 0 <= amount ==> CommissionFor(rates, t, Some(amount)) <= amount
  {
    ChargeStaysInside(amount, RateOf(rates, t));
    RoundOfWhole(amount - CommissionFor(rates, t, Some(amount)));
  }

  /** A listed type pays its listed share, to the nearest cent, and a type that is not listed pays nothing. */
  lemma ListedTypesPayTheirRate(rates: Rates, t: PaymentType, amount: int)
    requires 0 < amount
    ensures var charged := CommissionFor(rates, t, Some(amount)) as real;
      if t in rates then charged - 0.5 <= amount as real * rates[t] < charged + 0.5 else charged == 0.0
  {
    if t !in rates {
      RoundOfWhole(0);
      assert amount as real * 0.0 == 0.0;
    }
  }

  /** A larger amount never pays a smaller commission, nor leaves a smaller net. */
  lemma CommissionIsMonotone(rates: Rates, t: PaymentType, a: int, b: int)
    requires ValidRates(rates) && a <= b
    ensures CommissionFor(rates, t, Some(a)) <= CommissionFor(rates, t, Some(b))
    ensures NetFor(rates, t, a) <= NetFor(rates, t, b)
  {
    CommissionConserves(rates, t, a);
    CommissionConserves(rates, t, b);
    if 0 < a {
      ChargeGrowsWithAmount(a, b, RateOf(rates, t));
    }
  }

  // --------------------------------------------------------------------------
  // The summary of paid payments
  // --------------------------------------------------------------------------

  /** A paid payment row; an old row may carry no commission. */
  datatype Paid = Paid(kind: PaymentType, amount: int, commission: Option<int>)

  datatype Totals = Totals(volume: int, commission: int, count: int)

  const ZERO: Totals := Totals(0, 0, 0)

  function CommissionOf(p: Paid): int {
    match p.commission case None => 0 case Some(c) => c
  }

  function Plus(x: Totals, y: Totals): Totals {
    Totals(x.volume + y.volume, x.commission + y.commission, x.count + y.count)
  }

  function One(p: Paid): Totals {
    Totals(p.amount, CommissionOf(p), 1)
  }

  /** The first n payments, added up. */
  function Sum(paid: seq<Paid>, n: nat): Totals
    requires n <= |paid|
  {
    if n == 0 then ZERO else Plus(Sum(paid, n - 1), One(paid[n - 1]))
  }

  /** Each payment counts once, with its amount and the commission it carries, if any. */
  lemma EachPaymentCounts(paid: seq<Paid>, n: nat)
    requires n < |paid|
    ensures var a, b, p := Sum(paid, n), Sum(paid, n + 1), paid[n];
      && b.volume - a.volume == p.amount && b.count - a.count == 1
      && b.commission - a.commission == if p.commission.Some? then p.commission.value else 0
    ensures Sum(paid, 0) == Totals(0, 0, 0)
  {
  }

  /** Those of the first n payments that are of one type, added up. */
  function SumOfType(paid: seq<Paid>, n: nat, t: PaymentType): Totals
    requires n <= |paid|
  {
    if n == 0 then ZERO
    else if paid[n - 1].kind == t then Plus(SumOfType(paid, n - 1, t), One(paid[n - 1]))
    else SumOfType(paid, n - 1, t)
  }

  function Lookup(byType: map<PaymentType, Totals>, t: PaymentType): Totals {
    if t in byType then byType[t] else ZERO
  }

  /** The totals loop of the commission summary. */
  method Summarize(paid: seq<Paid>)
    returns (byType: map<PaymentType, Totals>, totalVolume: int, totalCommission: int)
    ensures forall t :: t in byType <==> exists i :: 0 <= i < |paid| && paid[i].kind == t
    ensures forall t :: t in byType ==> byType[t] == SumOfType(paid, |paid|, t)
    ensures totalVolume == Sum(paid, |paid|).volume
    ensures totalCommission == Sum(paid, |paid|).commission
  {
    byType, totalVolume, totalCommission := map[], 0, 0;
    for i := 0 to |paid|
      invariant forall t :: t in byType <==> exists j :: 0 <= j < i && paid[j].kind == t
      invariant forall t :: Lookup(byType, t) == SumOfType(paid, i, t)
      invariant totalVolume == Sum(paid, i).volume
      invariant totalCommission == Sum(paid, i).commission
    {
      var payment := paid[i];
      var entry := Lookup(byType, payment.kind);
      entry := entry.(volume := entry.volume + payment.amount);
      entry := entry.(commission := entry.commission + CommissionOf(payment));
      entry := entry.(count := entry.count + 1);
      byType := byType[payment.kind := entry];
      totalVolume := totalVolume + payment.amount;
      totalCommission := totalCommission + CommissionOf(payment);
    }
    forall t | t in byType ensures byType[t] == SumOfType(paid, |paid|, t) {
      assert Lookup(byType, t) == SumOfType(paid, |paid|, t);
    }
  }

  const ALL_TYPES: seq<PaymentType> :=
    [Marketplace, Transport, Inspector, Digital, Advertising, MarketplaceInstallment]

  /** Per-type totals, added up over the listed types. */
  function OverTypes(types: seq<PaymentType>, totals: PaymentType -> Totals): Totals {
    if types == [] then ZERO else Plus(totals(types[0]), OverTypes(types[1..], totals))
  }

  predicate Distinct(types: seq<PaymentType>) {
    types == [] || (types[0] !in types[1..] && Distinct(types[1..]))
  }

  /** Adding to one type's total adds that much, once, to the sum over distinct types. */
  lemma {:induction false} AddToOneType(types: seq<PaymentType>, before: PaymentType -> Totals,
    after: PaymentType -> Totals, kind: PaymentType, extra: Totals)
    requires Distinct(types)
    requires forall t :: after(t) == if t == kind then Plus(before(t), extra) else before(t)
    ensures OverTypes(types, after) ==
      Plus(OverTypes(types, before), if kind in types then extra else ZERO)
  {
    if types != [] {
      AddToOneType(types[1..], before, after, kind, extra);
    }
  }

  lemma {:induction false} AddNothing(types: seq<PaymentType>, totals: PaymentType -> Totals)
    requires forall t :: totals(t) == ZERO
    ensures OverTypes(types, totals) == ZERO
  {
    if types != [] {
      AddNothing(types[1..], totals);
    }
  }

  lemma AllTypesAreDistinct()
    ensures Distinct(ALL_TYPES)
    ensures forall t: PaymentType :: t in ALL_TYPES
  {
    assert ALL_TYPES[1..][1..][1..] == [Digital, Advertising, MarketplaceInstallment];
    assert [Digital, Advertising, MarketplaceInstallment][1..][1..] == [MarketplaceInstallment];
    forall t: PaymentType ensures t in ALL_TYPES {
      match t
      case Marketplace => assert ALL_TYPES[0] == t;
      case Transport => assert ALL_TYPES[1] == t;
      case Inspector => assert ALL_TYPES[2] == t;
      case Digital => assert ALL_TYPES[3] == t;
      case Advertising => assert ALL_TYPES[4] == t;
      case MarketplaceInstallment => assert ALL_TYPES[5] == t;
    }
  }

  function ByType(paid: seq<Paid>, n: nat): PaymentType -> Totals
    requires n <= |paid|
  {
    t => SumOfType(paid, n, t)
  }

  /** Nothing is lost or counted twice: whatever list names each type once, its totals add up to the grand totals. */
  lemma {:induction false} TypesAddUpToTotals(types: seq<PaymentType>, paid: seq<Paid>, n: nat)
    requires n <= |paid|
    requires Distinct(types) && forall t: PaymentType :: t in types
    ensures OverTypes(types, ByType(paid, n)) == Sum(paid, n)
    ensures Sum(paid, n).count == n
  {
    if n == 0 {
      AddNothing(types, ByType(paid, n));
    } else {
      TypesAddUpToTotals(types, paid, n - 1);
      OnePaymentCountsOnce(types, paid, n);
    }
  }

  lemma OnePaymentCountsOnce(types: seq<PaymentType>, paid: seq<Paid>, n: nat)
    requires 0 < n <= |paid|
    requires Distinct(types) && forall t: PaymentType :: t in types
    ensures OverTypes(types, ByType(paid, n)) == Plus(OverTypes(types, ByType(paid, n - 1)), One(paid[n - 1]))
  {
    var before, after, last := ByType(paid, n - 1), ByType(paid, n), paid[n - 1];
    assert forall t :: after(t) == if t == last.kind then Plus(before(t), One(last)) else before(t);
    AddToOneType(types, before, after, last.kind, One(last));
  }

  /** What the exact, unrounded rates would have charged on the first n payments. */
  ghost function ExactCommission(rates: Rates, paid: seq<Paid>, n: nat): real
    requires n <= |paid|
  {
    if n == 0 then 0.0
    else ExactCommission(rates, paid, n - 1) + ExactCharge(paid[n - 1].amount, RateOf(rates, paid[n - 1].kind))
  }

  function ExactCharge(amount: int, rate: real): real {
    amount as real * rate
  }

  function HalfCents(n: nat): real {
    n as real / 2.0
  }

  /** Every row carries the commission that commissionFor computes for it. */
  ghost predicate ChargedAtRates(rates: Rates, paid: seq<Paid>) {
    forall i :: 0 <= i < |paid| ==>
      0 <= paid[i].amount &&
      paid[i].commission == Some(CommissionFor(rates, paid[i].kind, Some(paid[i].amount)))
  }

  lemma ChargeIsClose(amount: int, rate: real)
    requires 0 <= amount
    ensures Charge(amount, rate) as real - 0.5 <= ExactCharge(amount, rate) <= Charge(amount, rate) as real + 0.5
  {
  }

  /** Rounding costs at most half a cent on each payment, however many there are. */
  lemma {:induction false} RoundingErrorIsBounded(rates: Rates, paid: seq<Paid>, n: nat)
    requires n <= |paid| && ChargedAtRates(rates, paid)
    ensures Sum(paid, n).commission as real - HalfCents(n) <= ExactCommission(rates, paid, n)
    ensures ExactCommission(rates, paid, n) <= Sum(paid, n).commission as real + HalfCents(n)
  {
    if n != 0 {
      RoundingErrorIsBounded(rates, paid, n - 1);
      ChargeIsClose(paid[n - 1].amount, RateOf(rates, paid[n - 1].kind));
    }
  }
}
