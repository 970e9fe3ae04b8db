/** The formulas of the plain strategy (InvestmentStrategy.cpp): money is
    returned as invested and nothing is earned. */
module BaseStrategy {
  import opened Errors

  /** A risk rating the setter accepts. */
  predicate ValidRisk(risk: real) {
    0.0 <= risk <= 1.0
  }

  /** invest: a positive amount comes back unchanged. */
  function Invest(amount: real): (r: Result<real>)
    ensures r.Err? <==> amount <= 0.0
    ensures r.Err? ==> r.error == NonPositiveAmount
    ensures r.Ok? ==> r.value == amount
  {
    if amount <= 0.0 then Err(NonPositiveAmount) else Ok(amount)
  }

  /** calculatePotentialReturn: a positive amount earns nothing. */
  function PotentialReturn(amount: real): (r: Result<real>)
    ensures r.Err? <==> amount <= 0.0
    ensures r.Err? ==> r.error == NonPositiveAmount
    ensures r.Ok? ==> r.value == 0.0
  {
    if amount <= 0.0 then Err(NonPositiveAmount) else Ok(0.0)
  }

  /** What invest returns is the principal plus the potential return. */
  lemma InvestIsPrincipalPlusReturn(amount: real)
    requires amount > 0.0
    ensures Invest(amount).value == amount + PotentialReturn(amount).value
  {
  }
}
