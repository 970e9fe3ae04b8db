/** The formulas of the bond strategy (BondInvestment.cpp): invest compounds
    the interest rate over the term, the potential return is simple interest. */
module BondStrategy {
  import opened Errors
  import opened Power

  /** The risk rating every bond is constructed with. */
  const InitialRiskRating: real := 0.2

  /** calculateRisk: a bond is four fifths as risky as its rating says. */
  function Risk(riskRating: real): (r: real)
    ensures r <= riskRating <==> riskRating >= 0.0
    ensures r >= 0.0 <==> riskRating >= 0.0
  {
    riskRating * 0.8
  }

  /** calculatePotentialReturn: simple interest, the rate earned on the
      amount once per year of the term. */
  function PotentialReturn(rate: real, years: nat, amount: real): (r: Result<real>)
    ensures r.Err? <==> amount <= 0.0
    ensures r.Err? ==> r.error == NonPositiveAmount
    ensures r.Ok? && rate >= 0.0 ==> r.value >= 0.0
  {
    if amount <= 0.0 then Err(NonPositiveAmount) else Ok(amount * rate * (years as real))
  }

  /** Simple interest earns the same every year: the potential return over a
      term is the term times the return over one year. */
  lemma SimpleInterestPerYear(rate: real, years: nat, amount: real)
    requires amount > 0.0
    ensures PotentialReturn(rate, years, amount).value
            == (years as real) * PotentialReturn(rate, 1, amount).value
  {
  }

  /** invest: compound growth of the amount at the rate over the term. It
      never returns less than the principal plus simple interest. */
  function Invest(rate: real, years: nat, amount: real): (r: Result<real>)
    ensures r.Err? <==> amount <= 0.0
    ensures r.Err? ==> r.error == NonPositiveAmount
    ensures r.Ok? && rate >= -1.0 ==> r.value >= amount + PotentialReturn(rate, years, amount).value
  {
    if amount <= 0.0 then Err(NonPositiveAmount)
    else
      AboveSimpleInterest(rate, years, amount);
      Ok(amount * Pow(1.0 + rate, years))
  }

  lemma AboveSimpleInterest(rate: real, years: nat, amount: real)
    requires amount > 0.0
    ensures rate >= -1.0 ==>
              amount * Pow(1.0 + rate, years) >= amount + PotentialReturn(rate, years, amount).value
  {
    if rate >= -1.0 {
      var y := years as real;
      Bernoulli(rate, years);
      MulMonotone(amount, 1.0 + y * rate, Pow(1.0 + rate, years));
      assert amount * (1.0 + y * rate) == amount + amount * rate * y;
    }
  }

  /** With a non-negative rate a bond never loses money; with a positive rate
      and a term of at least one year it gains. */
  lemma InvestGrowth(rate: real, years: nat, amount: real)
    requires amount > 0.0 && rate >= 0.0
    ensures Invest(rate, years, amount).value >= amount
    ensures rate > 0.0 && years > 0 ==> Invest(rate, years, amount).value > amount
  {
  }

  /** A higher rate or a longer term never returns less. */
  lemma InvestMonotone(rate: real, rate': real, years: nat, years': nat, amount: real)
    requires amount > 0.0 && 0.0 <= rate <= rate' && years <= years'
    ensures Invest(rate, years, amount).value <= Invest(rate', years', amount).value
  {
    var low, high := Pow(1.0 + rate, years), Pow(1.0 + rate', years');
    assert low <= high by {
      PowMonotoneInBase(1.0 + rate, 1.0 + rate', years);
      PowMonotoneInExponent(1.0 + rate', years, years');
    }
    ScaledOrder(amount, low, high, Invest(rate, years, amount).value, Invest(rate', years', amount).value);
  }

  lemma ScaledOrder(amount: real, low: real, high: real, x: real, y: real)
    requires amount > 0.0 && low <= high && x == amount * low && y == amount * high
    ensures x <= y
  {
    MulMonotone(amount, low, high);
  }

  /** Compounding is consistent: investing for m years and reinvesting the
      proceeds for n more years is investing for m + n years. */
  lemma {:induction false} InvestCompounds(rate: real, m: nat, n: nat, amount: real)
    requires amount > 0.0 && rate > -1.0
    ensures Invest(rate, m, amount).Ok?
    ensures Invest(rate, n, Invest(rate, m, amount).value).Ok?
    ensures Invest(rate, m + n, amount).value == Invest(rate, n, Invest(rate, m, amount).value).value
  {
    var pm, pn := Pow(1.0 + rate, m), Pow(1.0 + rate, n);
    var grown := amount * pm;
    assert grown > 0.0 by { MulMonotone(amount, 0.0, pm); assert amount * pm != 0.0; }
    assert Invest(rate, m, amount).value == grown;
    assert Invest(rate, n, grown).value == grown * pn;
    PowAdd(1.0 + rate, m, n);
    assert Invest(rate, m + n, amount).value == amount * (pm * pn);
    assert amount * (pm * pn) == grown * pn;
  }
}
