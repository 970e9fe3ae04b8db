/** The bank (Bank.cpp): a named fund balance and an optional reference to
    the strategy that investments are delegated to. */
module Banking {
  import opened Errors
  import opened Strategies

  /** What the bank reports when no strategy is attached. */
  const NoStrategyName: string := "No strategy set"

  class Bank {
    var name: string
    var availableFunds: real
    var strategy: Strategy?

    /** Every operation keeps the balance non-negative. */
    ghost predicate Valid()
      reads this
    {
      availableFunds >= 0.0
    }

    /** The member initialisation of the constructor; its check comes first,
        in Open. */
    constructor (bankName: string, initialFunds: real)
      requires initialFunds >= 0.0
      ensures Valid()
      ensures name == bankName && availableFunds == initialFunds && strategy == null
    {
      name := bankName;
      availableFunds := initialFunds;
      strategy := null;
    }

    /** Bank(bankName, initialFunds): rejects a negative opening balance;
        otherwise the bank holds exactly that balance and no strategy. */
    static method Open(bankName: string, initialFunds: real) returns (r: Result<Bank>)
      ensures r.Ok? <==> initialFunds >= 0.0
      ensures r.Err? ==> r.error == NegativeInitialFunds
      ensures r.Ok? ==> fresh(r.value) && r.value.Valid()
      ensures r.Ok? ==> r.value.name == bankName && r.value.availableFunds == initialFunds
      ensures r.Ok? ==> r.value.strategy == null
    {
      if initialFunds < 0.0 {
        return Err(NegativeInitialFunds);
      }
      var b := new Bank(bankName, initialFunds);
      return Ok(b);
    }

    /** setStrategy: an empty reference is rejected and the current strategy
        kept; any other reference replaces it. Nothing else changes. */
    method SetStrategy(newStrategy: Strategy?) returns (o: Outcome)
      modifies this
      ensures o.Pass? <==> newStrategy != null
      ensures o.Fail? ==> o.error == NullStrategy
      ensures strategy == if newStrategy != null then newStrategy else old(strategy)
      ensures name == old(name) && availableFunds == old(availableFunds)
    {
      if newStrategy == null {
        return Fail(NullStrategy);
      }
      strategy := newStrategy;
      return Pass;
    }

    /** executeInvestment: with no strategy, or with an amount above the
        balance, it fails and nothing changes. Otherwise the amount is
        deducted first and the result is what the attached strategy's invest
        gives for it at this moment. The deduction stays when invest then
        fails: an amount that is not positive fails with the balance raised
        by its magnitude. */
    method ExecuteInvestment(amount: real) returns (r: Result<real>)
      requires Valid()
      requires strategy != null ==> strategy.Valid()
      modifies this
      ensures Valid()
      ensures strategy == old(strategy) && name == old(name)
      ensures strategy == null ==>
                r.Err? && r.error == NoStrategy && availableFunds == old(availableFunds)
      ensures strategy != null && amount > old(availableFunds) ==>
                r.Err? && r.error == InsufficientFunds && availableFunds == old(availableFunds)
      ensures strategy != null && amount <= old(availableFunds) ==>
                availableFunds == old(availableFunds) - amount && r == strategy.Invest(amount)
      ensures strategy != null && amount <= 0.0 ==>
                r.Err? && r.error == NonPositiveAmount && availableFunds == old(availableFunds) - amount
      ensures r.Ok? ==> amount > 0.0 && availableFunds == old(availableFunds) - amount
    {
      if strategy == null {
        return Err(NoStrategy);
      }
      if amount > availableFunds {
        return Err(InsufficientFunds);
      }
      availableFunds := availableFunds - amount;
      r := strategy.Invest(amount);
    }

    /** getCurrentStrategyName: the fixed text when no strategy is attached,
        otherwise the attached strategy's name. */
    function CurrentStrategyName(): (s: string)
      reads this
      ensures strategy == null ==> s == NoStrategyName
      ensures strategy != null ==> s == strategy.name
    {
      if strategy == null then NoStrategyName else strategy.name
    }

    /** setName: replaces the name and nothing else. */
    method SetName(bankName: string)
      modifies this
      ensures name == bankName
      ensures availableFunds == old(availableFunds) && strategy == old(strategy)
    {
      name := bankName;
    }

    /** getAvailableFunds: the balance, never negative. */
    function AvailableFunds(): (funds: real)
      reads this
      requires Valid()
      ensures funds >= 0.0
    {
      availableFunds
    }

    /** depositFunds: rejects an amount that is not positive; otherwise adds
        exactly the amount. Nothing else changes. */
    method DepositFunds(amount: real) returns (o: Outcome)
      requires Valid()
      modifies this
      ensures Valid()
      ensures o.Pass? <==> amount > 0.0
      ensures o.Fail? ==> o.error == NonPositiveDeposit
      ensures availableFunds == if o.Pass? then old(availableFunds) + amount else old(availableFunds)
      ensures name == old(name) && strategy == old(strategy)
    {
      if amount <= 0.0 {
        return Fail(NonPositiveDeposit);
      }
      availableFunds := availableFunds + amount;
      return Pass;
    }

    /** withdrawFunds: rejects an amount that is not positive; answers false
        and keeps the balance when the amount exceeds it; otherwise subtracts
        exactly the amount and answers true. Nothing else changes. */
    method WithdrawFunds(amount: real) returns (r: Result<bool>)
      requires Valid()
      modifies this
      ensures Valid()
      ensures r.Err? <==> amount <= 0.0
      ensures r.Err? ==> r.error == NonPositiveWithdrawal
      ensures r.Ok? ==> (r.value <==> amount <= old(availableFunds))
      ensures availableFunds == if r.Ok? && r.value then old(availableFunds) - amount else old(availableFunds)
      ensures name == old(name) && strategy == old(strategy)
    {
      if amount <= 0.0 {
        return Err(NonPositiveWithdrawal);
      }
      if amount > availableFunds {
        return Ok(false);
      }
      availableFunds := availableFunds - amount;
      return Ok(true);
    }
  }

  /** The fixed text identifies a bank without a strategy exactly when no
      attached strategy carries that text as its name. */
  lemma NoStrategyNameExact(b: Bank)
    requires b.strategy != null ==> b.strategy.name != NoStrategyName
    ensures b.CurrentStrategyName() == NoStrategyName <==> b.strategy == null
  {
  }

  /** A plain strategy may be given any name, including the fixed text, so
      the name alone does not tell whether a strategy is attached. */
  method AmbiguousStrategyName() returns (b: Bank)
    ensures b.strategy != null && b.CurrentStrategyName() == NoStrategyName
  {
    b := new Bank("Ambiguous", 0.0);
    var s := Strategy.NewPlain(NoStrategyName, 0.5);
    var o := b.SetStrategy(s);
  }
}
