/** Money as whole cents, the rounding the back end applies to it, and Option. */
module Money {

  datatype Option<+T> = None | Some(value: T)

  /** Math.round: the nearest integer, halves rounded up. */
  function Round(x: real): (r: int)
    ensures r as real - 0.5 <= x < r as real + 0.5
  {
    (x + 0.5).Floor
  }

  lemma RoundIsMonotone(x: real, y: real)
    requires x <= y
    ensures Round(x) <= Round(y)
  {
  }

  /** A whole number rounds to itself, and nothing between 0 and n rounds outside. */
  lemma RoundStaysInside(x: real, n: int)
    requires 0.0 <= x <= n as real
    ensures 0 <= Round(x) <= n
  {
  }

  // --------------------------------------------------------------------------
  // Who pays the inspection fee
  // --------------------------------------------------------------------------

  datatype FeePayer = BuyerPays | SellerPays | Split

  /** Math.round(fee * 50) / 100 on a fee of `fee` cents: half of it, rounded up. */
  function HalfUp(fee: int): int {
    (fee + 1) / 2
  }

  function BuyerShare(payer: FeePayer, fee: int): Option<int> {
    match payer
    case SellerPays => None
    case Split => Some(HalfUp(fee))
    case BuyerPays => Some(fee)
  }

  function SellerShare(payer: FeePayer, fee: int): Option<int> {
    match payer
    case BuyerPays => None
    case Split => Some(fee - HalfUp(fee))
    case SellerPays => Some(fee)
  }

  function OrZero(o: Option<int>): int {
    match o case None => 0 case Some(n) => n
  }

  /** HalfUp is what the code's Math.round(fee * 50) / 100 computes, in cents. */
  lemma HalfUpIsRoundedHalf(fee: int)
    ensures HalfUp(fee) == Round(fee as real * 0.5)
  {
    var k := fee / 2;
    if fee % 2 == 0 {
      assert fee == 2 * k;
      assert fee as real * 0.5 == k as real;
    } else {
      assert fee == 2 * k + 1;
      assert fee as real * 0.5 + 0.5 == (k + 1) as real;
    }
  }

  /** Whoever is to pay bears the whole fee and the other has no share; a split is even, the odd cent the buyer's. */
  ghost predicate AreSharesOf(payer: FeePayer, fee: int, buyer: Option<int>, seller: Option<int>) {
    match payer
    case BuyerPays => buyer == Some(fee) && seller == None
    case SellerPays => buyer == None && seller == Some(fee)
    case Split => buyer.Some? && seller.Some? && buyer.value + seller.value == fee && 0 <= buyer.value - seller.value <= 1
  }

  /** The shares are billed to the payer, and in every mode they make up the fee. */
  lemma SharesSumToFee(payer: FeePayer, fee: int)
    ensures AreSharesOf(payer, fee, BuyerShare(payer, fee), SellerShare(payer, fee))
    ensures OrZero(BuyerShare(payer, fee)) + OrZero(SellerShare(payer, fee)) == fee
    ensures payer.Split? ==>
      0 <= OrZero(BuyerShare(payer, fee)) - OrZero(SellerShare(payer, fee)) <= 1
  {
  }
}
