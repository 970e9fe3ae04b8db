/** The strategy objects of the simulator. The source's class hierarchy
    (InvestmentStrategy with the subclasses StockInvestment and
    BondInvestment) becomes one class whose variant part is a closed
    datatype; the virtual members dispatch on it. Strategies are objects,
    not values: a bank holds a reference to one, and a change made through
    another reference is seen by the bank. */
module Strategies {
  import opened Errors
  import BaseStrategy
  import StockStrategy
  import BondStrategy

  /** The subclass an object was constructed as, with its own fields. */
  datatype Variant =
    | Plain
    | Stock(expectedReturn: real)
    | Bond(interestRate: real, termYears: int)

  /** What the subclass constructors and setters guarantee of their fields. */
  predicate ValidVariant(v: Variant) {
    match v
    case Plain => true
    case Stock(expectedReturn) => expectedReturn >= 0.0
    case Bond(interestRate, termYears) => interestRate >= 0.0 && termYears > 0
  }

  class Strategy {
    const name: string
    var riskRating: real
    var variant: Variant

    ghost predicate Valid()
      reads this
    {
      ValidVariant(variant)
    }

    /** The member initialisation shared by the three constructors; the
        checks the subclass constructors make come first, in the factories
        below. The rating is stored as given. */
    constructor (name: string, risk: real, variant: Variant)
      requires ValidVariant(variant)
      ensures Valid()
      ensures this.name == name && riskRating == risk && this.variant == variant
    {
      this.name := name;
      this.riskRating := risk;
      this.variant := variant;
    }

    /** InvestmentStrategy(name, risk): never fails and does not check the
        rating. */
    static method NewPlain(name: string, risk: real) returns (s: Strategy)
      ensures fresh(s) && s.Valid()
      ensures s.name == name && s.riskRating == risk && s.variant == Plain
    {
      s := new Strategy(name, risk, Plain);
    }

    /** StockInvestment(risk, returnRate): rejects a negative expected return. */
    static method NewStock(risk: real, returnRate: real) returns (r: Result<Strategy>)
      ensures r.Ok? <==> returnRate >= 0.0
      ensures r.Err? ==> r.error == NegativeExpectedReturn
      ensures r.Ok? ==> fresh(r.value) && r.value.Valid()
      ensures r.Ok? ==> r.value.name == "Stock" && r.value.riskRating == risk
      ensures r.Ok? ==> r.value.variant == Stock(returnRate)
    {
      if returnRate < 0.0 {
        return Err(NegativeExpectedReturn);
      }
      var s := new Strategy("Stock", risk, Stock(returnRate));
      return Ok(s);
    }

    /** BondInvestment(rate, years): rejects a negative rate first, then a
        term that is not positive; the rating is always the bond default. */
    static method NewBond(rate: real, years: int) returns (r: Result<Strategy>)
      ensures r.Ok? <==> rate >= 0.0 && years > 0
      ensures rate < 0.0 ==> r.Err? && r.error == NegativeInterestRate
      ensures rate >= 0.0 && years <= 0 ==> r.Err? && r.error == NonPositiveTerm
      ensures r.Ok? ==> fresh(r.value) && r.value.Valid()
      ensures r.Ok? ==> r.value.name == "Bond" && r.value.riskRating == BondStrategy.InitialRiskRating
      ensures r.Ok? ==> r.value.variant == Bond(rate, years)
    {
      if rate < 0.0 {
        return Err(NegativeInterestRate);
      }
      if years <= 0 {
        return Err(NonPositiveTerm);
      }
      var s := new Strategy("Bond", BondStrategy.InitialRiskRating, Bond(rate, years));
      return Ok(s);
    }

    /** getExpectedReturn: never negative on a stock. */
    function ExpectedReturn(): (e: real)
      reads this
      requires Valid() && variant.Stock?
      ensures e >= 0.0
    {
      variant.expectedReturn
    }

    /** getInterestRate: never negative on a bond. */
    function InterestRate(): (rate: real)
      reads this
      requires Valid() && variant.Bond?
      ensures rate >= 0.0
    {
      variant.interestRate
    }

    /** getTermYears: always at least one year on a bond. */
    function TermYears(): (years: int)
      reads this
      requires Valid() && variant.Bond?
      ensures years >= 1
    {
      variant.termYears
    }

    /** setRiskRating: accepts exactly the ratings in [0, 1]; a rejected
        rating leaves the object as it was. */
    method SetRiskRating(risk: real) returns (o: Outcome)
      modifies this
      ensures o.Pass? <==> BaseStrategy.ValidRisk(risk)
      ensures o.Fail? ==> o.error == RiskOutOfRange
      ensures riskRating == if o.Pass? then risk else old(riskRating)
      ensures variant == old(variant)
    {
      if 0.0 <= risk && risk <= 1.0 {
        riskRating := risk;
        return Pass;
      }
      return Fail(RiskOutOfRange);
    }

    /** setExpectedReturn: accepts a non-negative return, which
        ExpectedReturn then yields; a negative one changes nothing. */
    method SetExpectedReturn(returnRate: real) returns (o: Outcome)
      requires Valid() && variant.Stock?
      modifies this
      ensures Valid() && variant.Stock?
      ensures o.Pass? <==> returnRate >= 0.0
      ensures o.Fail? ==> o.error == NegativeExpectedReturn
      ensures ExpectedReturn() == if o.Pass? then returnRate else old(ExpectedReturn())
      ensures riskRating == old(riskRating)
    {
      if returnRate >= 0.0 {
        variant := Stock(returnRate);
        return Pass;
      }
      return Fail(NegativeExpectedReturn);
    }

    /** setInterestRate: accepts a non-negative rate, which InterestRate then
        yields; a negative one changes nothing. The term is kept. */
    method SetInterestRate(rate: real) returns (o: Outcome)
      requires Valid() && variant.Bond?
      modifies this
      ensures Valid() && variant.Bond?
      ensures o.Pass? <==> rate >= 0.0
      ensures o.Fail? ==> o.error == NegativeInterestRate
      ensures InterestRate() == if o.Pass? then rate else old(InterestRate())
      ensures TermYears() == old(TermYears()) && riskRating == old(riskRating)
    {
      if rate >= 0.0 {
        variant := variant.(interestRate := rate);
        return Pass;
      }
      return Fail(NegativeInterestRate);
    }

    /** setTermYears: accepts a positive term, which TermYears then yields;
        any other term changes nothing. The rate is kept. */
    method SetTermYears(years: int) returns (o: Outcome)
      requires Valid() && variant.Bond?
      modifies this
      ensures Valid() && variant.Bond?
      ensures o.Pass? <==> years > 0
      ensures o.Fail? ==> o.error == NonPositiveTerm
      ensures TermYears() == if o.Pass? then years else old(TermYears())
      ensures InterestRate() == old(InterestRate()) && riskRating == old(riskRating)
    {
      if years > 0 {
        variant := variant.(termYears := years);
        return Pass;
      }
      return Fail(NonPositiveTerm);
    }

    /** calculateRisk: the stored rating for a plain strategy, half again as
        much for a stock and four fifths of it for a bond; never negative
        when the rating is not, and a stock is never rated below a bond. */
    function CalculateRisk(): (r: real)
      reads this
      ensures variant.Plain? ==> r == riskRating
      ensures variant.Stock? ==> r == riskRating * 1.5
      ensures variant.Bond? ==> r == riskRating * 0.8
      ensures riskRating >= 0.0 ==> r >= 0.0
    {
      match variant
      case Plain => riskRating
      case Stock(_) => StockStrategy.Risk(riskRating)
      case Bond(_, _) => BondStrategy.Risk(riskRating)
    }

    /** calculatePotentialReturn: fails on an amount that is not positive;
        otherwise never negative, and zero for a plain strategy. */
    function PotentialReturn(amount: real): (r: Result<real>)
      reads this
      requires Valid()
      ensures r.Err? <==> amount <= 0.0
      ensures r.Err? ==> r.error == NonPositiveAmount
      ensures r.Ok? ==> r.value >= 0.0
      ensures r.Ok? && variant.Plain? ==> r.value == 0.0
    {
      match variant
      case Plain => BaseStrategy.PotentialReturn(amount)
      case Stock(expectedReturn) => StockStrategy.PotentialReturn(expectedReturn, amount)
      case Bond(interestRate, termYears) => BondStrategy.PotentialReturn(interestRate, termYears, amount)
    }

    /** invest: fails on an amount that is not positive; otherwise, whenever
        the rating is not negative, returns at least the principal plus the
        potential return, and a plain strategy returns the principal. */
    function Invest(amount: real): (r: Result<real>)
      reads this
      requires Valid()
      ensures r.Err? <==> amount <= 0.0
      ensures r.Err? ==> r.error == NonPositiveAmount
      ensures r.Ok? && riskRating >= 0.0 ==> r.value >= amount + PotentialReturn(amount).value
      ensures r.Ok? && variant.Plain? ==> r.value == amount
    {
      match variant
      case Plain => BaseStrategy.Invest(amount)
      case Stock(expectedReturn) =>
        StockStrategy.InvestGrowth(expectedReturn, riskRating, amount);
        StockStrategy.Invest(expectedReturn, riskRating, amount)
      case Bond(interestRate, termYears) => BondStrategy.Invest(interestRate, termYears, amount)
    }
  }

  /** At the same non-negative rating a stock is never rated less risky
      than a bond. */
  lemma StockRiskAtLeastBondRisk(riskRating: real)
    requires riskRating >= 0.0
    ensures StockStrategy.Risk(riskRating) >= BondStrategy.Risk(riskRating)
  {
  }

  /** With a non-negative rating no strategy loses money, and one whose
      potential return is positive makes a strict gain. */
  lemma InvestNeverLoses(s: Strategy, amount: real)
    requires s.Valid() && s.riskRating >= 0.0 && amount > 0.0
    ensures s.Invest(amount).Ok? && s.Invest(amount).value >= amount
    ensures s.PotentialReturn(amount).value > 0.0 ==> s.Invest(amount).value > amount
  {
  }
}
