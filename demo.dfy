/** The opening of the demonstration driver (Demo.cpp), up to the first
    year of its yearly loop, replayed against the
    model: the contracts above are enough to determine every figure it
    produces, including the effect of changing a strategy that a bank
    already holds. */
module Scenarios {
  import opened Errors
  import opened Strategies
  import opened Banking

  method DemoSession() returns (stockResult: real, riskSeenByBank: real, stockPotential: real,
                                bondResult: real, bondPotential: real, funds: real,
                                yearOneResult: real, yearOneFunds: real)
    ensures stockResult == 3525.0 && stockPotential == 300.0
    ensures riskSeenByBank == 1.05
    ensures bondResult == 2249.728 && bondPotential == 450.0
    ensures funds == 10000.0
    ensures yearOneResult == 1807.5 && yearOneFunds == 9500.0
  {
    var made := Bank.Open("Demo Bank", 10000.0);
    var bank := made.value;
    var o := bank.DepositFunds(5000.0);

    var madeStock := Strategy.NewStock(0.5, 0.10);
    var stock := madeStock.value;
    o := bank.SetStrategy(stock);
    var invested := bank.ExecuteInvestment(3000.0);
    stockResult := invested.value;

    // the bank still holds this strategy: the new rating is the one it sees
    o := stock.SetRiskRating(0.7);
    riskSeenByBank := bank.strategy.CalculateRisk();
    stockPotential := stock.PotentialReturn(3000.0).value;

    var madeBond := Strategy.NewBond(0.04, 3);
    var bond := madeBond.value;
    o := bank.SetStrategy(bond);
    invested := bank.ExecuteInvestment(2000.0);
    bondResult := invested.value;

    o := bond.SetTermYears(5);
    o := bond.SetInterestRate(0.045);
    bondPotential := bond.PotentialReturn(2000.0).value;
    funds := bank.AvailableFunds();

    // first year of the yearly loop: the stock, re-attached, invests with
    // the rating changed above
    o := bank.DepositFunds(1000.0);
    o := bank.SetStrategy(stock);
    invested := bank.ExecuteInvestment(1500.0);
    yearOneResult := invested.value;
    yearOneFunds := bank.AvailableFunds();
  }
}
