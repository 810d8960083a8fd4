/** `calculate_net_worth` of backend/calculations.py: market value of the assets, total income, the
    federal and state tax on that income, and net worth = market value - tax. The live price lookup
    (backend/price_service.py) is a parameter. */
module Calculations {
  import opened Wrappers
  import opened Models
  import TaxLogic

  /** `get_current_price(ticker)`; None stands for a price that cannot be fetched. */
  type PriceLookup = string -> Option<real>

  /** What one asset adds to the market value: price * shares, or nothing without a price. */
  function AssetMarketValue(a: Asset, price: PriceLookup): real {
    match price(a.ticker)
    case None => 0.0
    case Some(p) => p * a.shares
  }

  /** The running total of the loop after the given assets, in order. */
  function TotalMarketValue(assets: seq<Asset>, price: PriceLookup): real
    decreases |assets|
  {
    if |assets| == 0 then 0.0
    else TotalMarketValue(assets[..|assets| - 1], price) + AssetMarketValue(assets[|assets| - 1], price)
  }

  /** `sum(income.amount for income in incomes)`. */
  function TotalIncome(incomes: seq<Income>): real
    decreases |incomes|
  {
    if |incomes| == 0 then 0.0
    else TotalIncome(incomes[..|incomes| - 1]) + incomes[|incomes| - 1].amount
  }

  /** The dictionary `calculate_net_worth` returns. */
  datatype NetWorthReport = NetWorthReport(
    totalAssetsMarketValue: real,
    totalIncome: real,
    estimatedFederalTax: real,
    estimatedStateTax: real,
    estimatedTaxLiability: real,
    realTimeNetWorth: real)

  /** `calculate_net_worth`: the federal tax is asked for with the filing status's value, the state
      tax with the state's name; an error from either propagates (federal first). */
  function NetWorth(user: User, incomes: seq<Income>, assets: seq<Asset>, price: PriceLookup)
    : (r: Result<NetWorthReport, string>)
    ensures r.Success? <==> user.filingStatus == Single && user.state == CA
    ensures user.filingStatus != Single ==>
      r == Failure("Invalid filing status: " + user.filingStatus.Value())
    ensures user.filingStatus == Single && user.state != CA ==>
      r == Failure("Tax logic for state " + user.state.Name() + " is not available.")
    ensures r.Success? ==>
      && r.value.totalAssetsMarketValue == TotalMarketValue(assets, price)
      && r.value.totalIncome == TotalIncome(incomes)
      && r.value.estimatedTaxLiability == r.value.estimatedFederalTax + r.value.estimatedStateTax
      && r.value.realTimeNetWorth == r.value.totalAssetsMarketValue - r.value.estimatedTaxLiability
  {
    var marketValue := TotalMarketValue(assets, price);
    var totalIncome := TotalIncome(incomes);
    match TaxLogic.FederalTax(totalIncome, user.filingStatus.Value())
    case Failure(e) => Failure(e)
    case Success(federal) =>
      match TaxLogic.StateTax(totalIncome, user.state.Name(), user.filingStatus.Value())
      case Failure(e) => Failure(e)
      case Success(state) =>
        var liability := federal + state;
        Success(NetWorthReport(marketValue, totalIncome, federal, state, liability, marketValue - liability))
  }

  lemma {:induction false} TotalMarketValueConcat(xs: seq<Asset>, ys: seq<Asset>, price: PriceLookup)
    ensures TotalMarketValue(xs + ys, price) == TotalMarketValue(xs, price) + TotalMarketValue(ys, price)
    decreases |ys|
  {
    if |ys| > 0 {
      var zs := xs + ys;
      assert zs[..|zs| - 1] == xs + ys[..|ys| - 1];
      TotalMarketValueConcat(xs, ys[..|ys| - 1], price);
    } else {
      assert xs + ys == xs;
    }
  }

  /** Appending an asset with price p and s shares raises the market value by exactly p * s; one
      without a price leaves it unchanged. */
  lemma AppendAsset(assets: seq<Asset>, a: Asset, price: PriceLookup)
    ensures price(a.ticker).Some? ==>
      TotalMarketValue(assets + [a], price) == TotalMarketValue(assets, price) + price(a.ticker).value * a.shares
    ensures price(a.ticker).None? ==> TotalMarketValue(assets + [a], price) == TotalMarketValue(assets, price)
  {
    assert (assets + [a])[..|assets|] == assets;
  }

  /** An asset without a price contributes nothing wherever it stands in the list. */
  lemma UnpricedAssetIgnored(xs: seq<Asset>, a: Asset, ys: seq<Asset>, price: PriceLookup)
    requires price(a.ticker).None?
    ensures TotalMarketValue(xs + [a] + ys, price) == TotalMarketValue(xs + ys, price)
  {
    TotalMarketValueConcat(xs + [a], ys, price);
    AppendAsset(xs, a, price);
    TotalMarketValueConcat(xs, ys, price);
  }

  /** With the price service's fixed price of 1.0 for 'CASH', a cash holding counts at its share
      count (its dollar balance). */
  lemma CashCountsAtPar(assets: seq<Asset>, a: Asset, price: PriceLookup)
    requires a.ticker == "CASH" && price("CASH") == Some(1.0)
    ensures TotalMarketValue(assets + [a], price) == TotalMarketValue(assets, price) + a.shares
  {
    AppendAsset(assets, a, price);
  }

  /** No assets and no incomes: everything is zero, for the default SINGLE / CA user. */
  lemma EmptyPortfolio(price: PriceLookup)
    ensures NetWorth(User(Single, CA), [], [], price) == Success(NetWorthReport(0.0, 0.0, 0.0, 0.0, 0.0, 0.0))
  {
    assert TaxLogic.FederalTax(0.0, "single") == Success(0.0);
    assert TaxLogic.StateTax(0.0, "CA", "single") == Success(TaxLogic.StateTableTax(TaxLogic.CaSingle, 0.0));
  }

  /** For a supported user the tax liability is the federal plus the state tax on the same total income. */
  lemma LiabilityOfSupportedUser(incomes: seq<Income>, assets: seq<Asset>, price: PriceLookup)
    ensures var r := NetWorth(User(Single, CA), incomes, assets, price);
      && r.Success?
      && Success(r.value.estimatedFederalTax) == TaxLogic.FederalTax(TotalIncome(incomes), "single")
      && Success(r.value.estimatedStateTax) == TaxLogic.StateTax(TotalIncome(incomes), "CA", "single")
  {
  }

  /** The loop over the assets that accumulates `total_assets_market_value`. */
  method TotalAssetsMarketValue(assets: seq<Asset>, price: PriceLookup) returns (total: real)
    ensures total == TotalMarketValue(assets, price)
  {
    total := 0.0;
    var i := 0;
    while i < |assets|
      invariant 0 <= i <= |assets|
      invariant total == TotalMarketValue(assets[..i], price)
    {
      var currentPrice := price(assets[i].ticker);
      if currentPrice.Some? {
        total := total + currentPrice.value * assets[i].shares;
      }
      assert assets[..i + 1][..i] == assets[..i];
      i := i + 1;
    }
    assert assets[..i] == assets;
  }

  /** `calculate_net_worth(user, incomes, assets)`. */
  method CalculateNetWorth(user: User, incomes: seq<Income>, assets: seq<Asset>, price: PriceLookup)
    returns (r: Result<NetWorthReport, string>)
    ensures r == NetWorth(user, incomes, assets, price)
  {
    var totalAssetsMarketValue := TotalAssetsMarketValue(assets, price);
    var totalIncome := TotalIncome(incomes);
    var federal := TaxLogic.CalculateFederalTax(totalIncome, user.filingStatus.Value());
    if federal.Failure? {
      return Failure(federal.error);
    }
    var state := TaxLogic.CalculateStateTax(totalIncome, user.state.Name(), user.filingStatus.Value());
    if state.Failure? {
      return Failure(state.error);
    }
    var estimatedTaxLiability := federal.value + state.value;
    var realTimeNetWorth := totalAssetsMarketValue - estimatedTaxLiability;
    r := Success(NetWorthReport(totalAssetsMarketValue, totalIncome, federal.value, state.value,
                                estimatedTaxLiability, realTimeNetWorth));
  }
}
