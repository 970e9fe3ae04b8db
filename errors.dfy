/** The failures an investment operation can report. The source throws one
    exception type with a different message at each guard; each message
    becomes one constructor here, so a contract can say which guard fired. */
module Errors {

  datatype Error =
    | NonPositiveAmount       // an investment amount that is zero or negative
    | RiskOutOfRange          // a risk rating outside [0, 1]
    | NegativeExpectedReturn  // a stock's expected return below zero
    | NegativeInterestRate    // a bond's interest rate below zero
    | NonPositiveTerm         // a bond's term of zero or fewer years
    | NegativeInitialFunds    // a bank opened with a negative balance
    | NullStrategy            // attaching an empty strategy reference
    | NoStrategy              // investing before any strategy is attached
    | InsufficientFunds       // investing more than the bank holds
    | NonPositiveDeposit      // depositing zero or a negative amount
    | NonPositiveWithdrawal   // withdrawing zero or a negative amount

  /** The result of an operation that returns a value or throws. */
  datatype Result<T> = Ok(value: T) | Err(error: Error)

  /** The result of an operation that returns nothing or throws. */
  datatype Outcome = Pass | Fail(error: Error)
}
