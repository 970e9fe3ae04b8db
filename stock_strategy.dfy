/** The formulas of the stock strategy (StockInvestment.cpp). The growth of
    an investment is the expected return scaled up by the stock's risk. */
module StockStrategy {
  import opened Errors

  /** calculateRisk: a stock is half again as risky as its rating says. */
  function Risk(riskRating: real): (r: real)
    ensures r >= riskRating <==> riskRating >= 0.0
  {
    riskRating * 1.5
  }

  /** calculatePotentialReturn: a positive amount earns the expected return
      as a fraction of itself. */
  function PotentialReturn(expectedReturn: real, amount: real): (r: Result<real>)
    ensures r.Err? <==> amount <= 0.0
    ensures r.Err? ==> r.error == NonPositiveAmount
    ensures r.Ok? ==> r.value / amount == expectedReturn
  {
    if amount <= 0.0 then Err(NonPositiveAmount) else Ok(amount * expectedReturn)
  }

  /** invest: the gain over the principal is the potential return scaled by
      one plus the stock's risk. */
  function Invest(expectedReturn: real, riskRating: real, amount: real): (r: Result<real>)
    ensures r.Err? <==> amount <= 0.0
    ensures r.Err? ==> r.error == NonPositiveAmount
    ensures r.Ok? ==> r.value - amount
                      == PotentialReturn(expectedReturn, amount).value * (1.0 + Risk(riskRating))
  {
    if amount <= 0.0 then Err(NonPositiveAmount)
    else Ok(amount * (1.0 + expectedReturn * (1.0 + Risk(riskRating))))
  }

  /** With a non-negative expected return and rating, investing never loses
      money and returns at least the potential return on top of the
      principal; a positive expected return makes a strict gain. */
  lemma InvestGrowth(expectedReturn: real, riskRating: real, amount: real)
    ensures amount > 0.0 && expectedReturn >= 0.0 && riskRating >= 0.0 ==>
              Invest(expectedReturn, riskRating, amount).value
              >= amount + PotentialReturn(expectedReturn, amount).value
              >= amount
    ensures amount > 0.0 && expectedReturn > 0.0 && riskRating >= 0.0 ==>
              Invest(expectedReturn, riskRating, amount).value > amount
  {
  }

  /** For a fixed non-negative expected return, a riskier stock returns more. */
  lemma InvestMonotoneInRisk(expectedReturn: real, low: real, high: real, amount: real)
    requires amount > 0.0 && expectedReturn >= 0.0 && low <= high
    ensures Invest(expectedReturn, low, amount).value <= Invest(expectedReturn, high, amount).value
  {
  }

  /** The constructor does not check the rating it is given: with a negative
      rating a positive expected return can lose money. */
  lemma NegativeRatingLoses()
    ensures Invest(0.10, -1.0, 1000.0) == Ok(950.0)
  {
  }
}
