/** The realised-returns property of the Position model. */
module Models {
  import opened Market

  /** The fields `Position.returns` reads; a nullable column is an Option. */
  datatype PositionRecord = PositionRecord(
    side: Side,
    amount: real,
    entryPrice: Option<real>,
    entryFee: Option<real>,
    closingPrice: Option<real>,
    closingFee: Option<real>)

  /** Python truthiness of a nullable float column: neither None nor 0. */
  predicate Truthy(x: Option<real>)
  {
    x.Some? && x.value != 0.0
  }

  /** A fee as `returns` charges it: a missing or zero fee counts as 0. */
  function FeeOrZero(x: Option<real>): (r: real)
    ensures x.None? ==> r == 0.0
    ensures x.Some? ==> r == x.value
  {
    if Truthy(x) then x.value else 0.0
  }

  /** Profit or loss before fees of a LONG or SHORT position. */
  function Gross(side: Side, entry: real, closing: real, amount: real): real
  {
    match side
    case Long => (closing - entry) * amount
    case Short => (entry - closing) * amount
  }

  /** `Position.returns` without the final `round(…, 2)`: both fees are
      subtracted, and the gross P&L is added only when the entry price, the
      closing price and the amount are all set and nonzero. */
  function Returns(p: PositionRecord): (r: real)
    ensures Truthy(p.entryPrice) && Truthy(p.closingPrice) && p.amount != 0.0 ==>
      r == Gross(p.side, p.entryPrice.value, p.closingPrice.value, p.amount) - FeeOrZero(p.entryFee) - FeeOrZero(p.closingFee)
    ensures !(Truthy(p.entryPrice) && Truthy(p.closingPrice) && p.amount != 0.0) ==>
      r == -FeeOrZero(p.entryFee) - FeeOrZero(p.closingFee)
  {
    var returnValue := 0.0 - FeeOrZero(p.entryFee) - FeeOrZero(p.closingFee);
    if Truthy(p.entryPrice) && Truthy(p.closingPrice) && p.amount != 0.0 then
      match p.side
      case Long => returnValue + (p.closingPrice.value - p.entryPrice.value) * p.amount
      case Short => returnValue + (p.entryPrice.value - p.closingPrice.value) * p.amount
    else
      returnValue
  }

  /** On identical inputs a LONG and a SHORT position make opposite gross P&L,
      and both make nothing when the position closes at its entry price. */
  lemma GrossIsAntisymmetric(entry: real, closing: real, amount: real)
    ensures Gross(Long, entry, closing, amount) == -Gross(Short, entry, closing, amount)
    ensures closing == entry ==> Gross(Long, entry, closing, amount) == 0.0 && Gross(Short, entry, closing, amount) == 0.0
  {
  }

  /** Flipping the side of a fully priced position mirrors its P&L around minus the fees. */
  lemma ReturnsOfFlippedSide(p: PositionRecord)
    requires Truthy(p.entryPrice) && Truthy(p.closingPrice) && p.amount != 0.0
    ensures Returns(p) + Returns(p.(side := Flip(p.side))) == -2.0 * (FeeOrZero(p.entryFee) + FeeOrZero(p.closingFee))
  {
    GrossIsAntisymmetric(p.entryPrice.value, p.closingPrice.value, p.amount);
  }

  /** Fees only ever lower the returns: non-negative fees take away from the gross P&L. */
  lemma FeesLowerReturns(p: PositionRecord)
    requires p.entryFee.Some? ==> p.entryFee.value >= 0.0
    requires p.closingFee.Some? ==> p.closingFee.value >= 0.0
    ensures Returns(p) <= Returns(p.(entryFee := None, closingFee := None))
  {
  }
}
