# Investment simulator, modelled in Dafny

A small object model of an investment simulation. Three kinds of strategy
turn a principal into a grown amount, a potential return and a risk figure:

- a plain strategy returns the principal and earns nothing;
- a stock grows the principal by its expected return scaled by its risk;
- a bond compounds its interest rate over its term.

A bank holds a non-negative balance and at most one strategy. Investing
through the bank deducts the amount and hands it to that strategy.

The model follows the definitions in the `.cpp` files.

- The C++ class hierarchy becomes one class, `Strategies.Strategy`. Its
  subclass-specific fields sit in a closed datatype `Variant`
  (`Plain | Stock(expectedReturn) | Bond(interestRate, termYears)`).
- Each virtual member matches on that variant.
- The formulas themselves are pure functions over exact reals, in the
  modules `BaseStrategy`, `StockStrategy` and `BondStrategy`.
- `Power.Pow` is `std::pow` with a natural-number exponent.
- Strategies are objects, not values. The bank keeps a reference to one, so
  a change made through another reference (Demo.cpp:29) is seen by the bank.
  `Scenarios.DemoSession` proves this.
- Each exception message becomes one constructor of `Errors.Error`.
- An operation that can throw returns `Result<T>` (`Ok`/`Err`), or `Outcome`
  (`Pass`/`Fail`) when it has no value.
- A constructor that can throw becomes a static factory: `NewStock`,
  `NewBond`, `Bank.Open`. The factory makes the source's checks, in the
  source's order, before it calls the class's constructor.
- The setters `SetExpectedReturn`, `SetInterestRate` and `SetTermYears`
  require the matching variant. In C++ the static type allows them only on
  that subclass.
- The getters `getStrategyName`, `getRiskRating` and `getName` are the
  fields `name` and `riskRating` of `Strategy` and the field `name` of
  `Bank`.
- `getExpectedReturn`, `getInterestRate`, `getTermYears` and
  `getAvailableFunds` are the functions `ExpectedReturn`, `InterestRate`,
  `TermYears` and `AvailableFunds`. Each setter's contract says what the
  matching getter returns afterwards.
- `Bank.ExecuteInvestment` requires the attached strategy's invariant
  (`Strategy.Valid`). Every factory establishes that invariant and every
  setter keeps it, so every strategy a caller can build meets it.

Behaviour that the code has, and that the model keeps and proves:

- The constructors store the risk rating unchecked, although
  `setRiskRating` accepts only [0, 1]. A stock built with a negative rating
  can lose money on a positive expected return
  (`StockStrategy.NegativeRatingLoses`). The growth properties are
  therefore stated for a non-negative rating.
- `executeInvestment` tests only that the amount does not exceed the
  balance. It deducts the amount before the strategy rejects an amount that
  is not positive, and it does not undo that deduction. So investing a
  negative amount fails and raises the balance by its magnitude.
- "No strategy set" is not a reliable sign that no strategy is attached. A
  plain strategy may carry exactly that name (`Banking.AmbiguousStrategyName`).

## Model

| member | source | states |
|---|---|---|
| `Power.Pow` | BondInvestment.cpp:14 | an integer power of a non-negative base is non-negative, of a positive base positive, of a base of at least 1 at least 1 |
| `Power.PowAdd` | BondInvestment.cpp:14 | exponents add: x^(m+n) = x^m · x^n |
| `Power.Bernoulli` | BondInvestment.cpp:14 | for h ≥ −1, (1+h)^n ≥ 1 + n·h |
| `Power.PowMonotoneInExponent` | BondInvestment.cpp:14 | with a base of at least 1, a larger exponent gives a larger power |
| `Power.PowMonotoneInBase` | BondInvestment.cpp:14 | a larger non-negative base gives a larger power |
| `BaseStrategy.Invest` | InvestmentStrategy.cpp:31-35 | fails exactly when the amount is not positive; otherwise returns the amount unchanged |
| `BaseStrategy.PotentialReturn` | InvestmentStrategy.cpp:37-41 | fails exactly when the amount is not positive; otherwise returns 0 |
| `BaseStrategy.InvestIsPrincipalPlusReturn` | InvestmentStrategy.cpp:31-41 | invest returns the principal plus the potential return |
| `StockStrategy.Risk` | StockInvestment.cpp:21-23 | a stock's risk is at least its rating exactly when the rating is non-negative |
| `StockStrategy.PotentialReturn` | StockInvestment.cpp:15-19 | fails exactly when the amount is not positive; otherwise the return divided by the amount is the expected return |
| `StockStrategy.Invest` | StockInvestment.cpp:9-13 | fails exactly when the amount is not positive; otherwise the gain over the principal is the potential return times (1 + risk) |
| `StockStrategy.InvestGrowth` | StockInvestment.cpp:9-19 | with non-negative return and rating, invest ≥ principal + potential return ≥ principal, and > principal when the expected return is positive |
| `StockStrategy.InvestMonotoneInRisk` | StockInvestment.cpp:12 | for a non-negative expected return, a higher rating never returns less |
| `StockStrategy.NegativeRatingLoses` | StockInvestment.cpp:3-13 | an unchecked rating of −1 makes 1000 at 10% come back as 950 |
| `BondStrategy.Risk` | BondInvestment.cpp:23-25 | a bond's risk is at most its rating, and non-negative, exactly when the rating is non-negative |
| `BondStrategy.PotentialReturn` | BondInvestment.cpp:17-21 | fails exactly when the amount is not positive; otherwise non-negative for a non-negative rate |
| `BondStrategy.SimpleInterestPerYear` | BondInvestment.cpp:20 | simple interest earns the same every year: the return over a term is the term times the return over one year |
| `BondStrategy.Invest` | BondInvestment.cpp:11-15 | fails exactly when the amount is not positive; otherwise for a rate ≥ −1 compound growth is at least principal plus simple interest |
| `BondStrategy.AboveSimpleInterest` | BondInvestment.cpp:11-21 | amount·(1+rate)^years ≥ amount + the simple-interest potential return |
| `BondStrategy.InvestGrowth` | BondInvestment.cpp:11-15 | a non-negative rate never loses money; a positive rate over at least one year gains |
| `BondStrategy.InvestMonotone` | BondInvestment.cpp:11-15 | a higher rate or a longer term never returns less |
| `BondStrategy.InvestCompounds` | BondInvestment.cpp:14 | investing for m years and reinvesting the proceeds for n years equals investing for m + n years |
| `Strategies.Strategy.constructor` | InvestmentStrategy.cpp:4-5 | stores the name, the unchecked rating and the variant; the object invariant holds |
| `Strategies.Strategy.NewPlain` | InvestmentStrategy.cpp:4-5 | never fails; the new strategy has the given name and rating |
| `Strategies.Strategy.NewStock` | StockInvestment.cpp:3-7 | fails exactly when the expected return is negative; otherwise named "Stock" with the given rating and return |
| `Strategies.Strategy.NewBond` | BondInvestment.cpp:3-9 | a negative rate fails first, then a term that is not positive; otherwise named "Bond" with rating 0.2 and the given rate and term |
| `Strategies.Strategy.ExpectedReturn` | StockInvestment.cpp:25-27 | a stock's expected return is never negative |
| `Strategies.Strategy.InterestRate` | BondInvestment.cpp:27-29 | a bond's interest rate is never negative |
| `Strategies.Strategy.TermYears` | BondInvestment.cpp:38-40 | a bond's term is at least one year |
| `Strategies.Strategy.SetRiskRating` | InvestmentStrategy.cpp:17-22 | succeeds exactly for ratings in [0, 1] and then stores the rating; otherwise fails and the rating is unchanged; the variant never changes |
| `Strategies.Strategy.SetExpectedReturn` | StockInvestment.cpp:29-34 | succeeds exactly for a non-negative return, which the getter then returns; otherwise fails with the state unchanged |
| `Strategies.Strategy.SetInterestRate` | BondInvestment.cpp:31-36 | succeeds exactly for a non-negative rate, which the getter then returns; otherwise fails with the state unchanged; the term is kept |
| `Strategies.Strategy.SetTermYears` | BondInvestment.cpp:42-47 | succeeds exactly for a positive term, which the getter then returns; otherwise fails with the state unchanged; the rate is kept |
| `Strategies.Strategy.CalculateRisk` | InvestmentStrategy.cpp:43-45 | the stored rating for a plain strategy, 1.5× it for a stock, 0.8× it for a bond (the overrides at StockInvestment.cpp:21-23 and BondInvestment.cpp:23-25); non-negative for a non-negative rating |
| `Strategies.Strategy.PotentialReturn` | InvestmentStrategy.cpp:37-41 | for every variant: fails exactly when the amount is not positive, is otherwise never negative, and is 0 for a plain strategy |
| `Strategies.Strategy.Invest` | InvestmentStrategy.cpp:31-35 | for every variant: fails exactly when the amount is not positive; with a non-negative rating returns at least principal plus potential return; a plain strategy returns the principal |
| `Strategies.StockRiskAtLeastBondRisk` | StockInvestment.cpp:21-23 | at the same non-negative rating, a stock's risk (StockInvestment.cpp:21-23) is at least a bond's (BondInvestment.cpp:23-25) |
| `Strategies.InvestNeverLoses` | Test.cpp:28-66 | with a non-negative rating every strategy returns at least the principal, and strictly more when its potential return is positive |
| `Banking.Bank.constructor` | Bank.cpp:3-4 | stores the name and the balance, with no strategy attached |
| `Banking.Bank.Open` | Bank.cpp:3-7 | fails exactly when the opening balance is negative; otherwise the bank holds that balance and no strategy |
| `Banking.Bank.SetStrategy` | Bank.cpp:9-13 | an empty reference fails and keeps the current strategy; any other reference replaces it; name and balance unchanged |
| `Banking.Bank.ExecuteInvestment` | Bank.cpp:15-22 | no strategy: fails, balance unchanged; amount above balance: fails, balance unchanged; otherwise deducts the amount and returns the strategy's invest; a non-positive amount fails after raising the balance; balance stays non-negative |
| `Banking.Bank.CurrentStrategyName` | Bank.cpp:24-28 | "No strategy set" without a strategy, the strategy's name with one |
| `Banking.Bank.SetName` | Bank.cpp:34-36 | replaces the name; balance and strategy unchanged |
| `Banking.Bank.AvailableFunds` | Bank.cpp:38-40 | the balance is never negative |
| `Banking.Bank.DepositFunds` | Bank.cpp:42-46 | fails exactly for an amount that is not positive; otherwise adds exactly the amount; balance stays non-negative |
| `Banking.Bank.WithdrawFunds` | Bank.cpp:48-55 | fails for an amount that is not positive; answers false with the balance unchanged when the amount exceeds it; otherwise subtracts exactly the amount and answers true |
| `Banking.NoStrategyNameExact` | Bank.cpp:24-28 | when no attached strategy is named "No strategy set", that text appears exactly when no strategy is attached |
| `Banking.AmbiguousStrategyName` | Bank.cpp:24-28 | a bank can hold a strategy and still report "No strategy set" |
| `Scenarios.DemoSession` | Demo.cpp:14-63 | the demonstration's figures: 3525 from the stock; after the rating is changed through the caller's own reference, the bank's attached strategy reports risk 1.05; 300 potential on the stock; 2249.728 from the bond; 450 after retuning the bond; 10000 left; then in the first year of the loop the re-attached stock, invested through the bank at the new rating, returns 1807.5 and leaves 9500 |

## Left out

- Floating point: amounts, rates and ratings are exact reals, so there is no IEEE-754 rounding. `std::pow` with an `int` exponent is the exact power `Power.Pow`.
- The width of `int`: the bond term is an unbounded integer, so a 32-bit overflow of `termYears` is not modelled.
- `getInvestmentDetails` (InvestmentStrategy.cpp:24-29, BondInvestment.cpp:49-55) and `getDetails` (Bank.cpp:57-63): they only format numbers into text through a string stream, which cannot be reproduced faithfully.
- Members that InvestmentSimulator.h declares but no shown file defines: the volatility and dividend accessors, the inflation, callable and adjustment members of bonds, and the longer constructor signatures with their defaults. Their formulas are not available.
- The destructor and `shared_ptr` reference counting and lifetime: only "an optional reference to a strategy" is modelled.
- The `InvestmentException` class and its message texts: each message is one `Errors.Error` constructor.
- The default argument `initialFunds = 0.0` of the bank constructor (InvestmentSimulator.h:105): the one-argument form `Bank(name)` is `Bank.Open(name, 0.0)`.
- Demo.cpp after the first year of its loop (years two to five and the final withdrawal), Test.cpp, and all file output. Test.cpp also uses a `CryptoInvestment` class that no shown file defines.
- `Strategies.Strategy.Invest`, `Strategies.InvestNeverLoses`: the growth bounds are stated only for a non-negative risk rating, because the constructors do not check the rating and a negative one can make a stock lose money.
