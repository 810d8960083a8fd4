/** The in-memory store and the two routes of backend/api.py. The store is a class whose fields the
    routes update; the JSON request body is a map from key to number and the price lookup is a
    parameter, as in Calculations. */
module Api {
  import opened Wrappers
  import opened Models
  import Calculations

  /** `asset_to_dict`: the three keys ticker, shares and cost_basis. */
  datatype AssetDict = AssetDict(ticker: string, shares: real, costBasis: real)

  /** `income_to_dict`: the income type by its enum name, and the amount. */
  datatype IncomeDict = IncomeDict(incomeType: string, amount: real)

  /** `net_worth_data` with the `assets` and `incomes` lists added. */
  datatype ApiResponse = ApiResponse(
    report: Calculations.NetWorthReport,
    assets: seq<AssetDict>,
    incomes: seq<IncomeDict>)

  /** The three module-level variables `user`, `incomes` and `assets`, as one value. */
  datatype StoreState = StoreState(user: User, incomes: seq<Income>, assets: seq<Asset>)

  /** `request.get_json()`: the numbers the client sent, by key. */
  type Request = map<string, real>

  /** The JSON keys `update_portfolio` reads. */
  const AnnualIncomeKey := "annualIncome"
  const QqqSharesKey := "qqqShares"
  const NvdaSharesKey := "nvdaShares"

  /** The message of the IndexError that `incomes[0]` raises on an empty list. */
  const IndexErrorMessage := "list index out of range"

  function AssetToDict(a: Asset): (d: AssetDict)
    ensures d.ticker == a.ticker && d.shares == a.shares && d.costBasis == a.costBasis
  {
    AssetDict(a.ticker, a.shares, a.costBasis)
  }

  /** The income type is written by name, so it can be looked up again. */
  function IncomeToDict(i: Income): (d: IncomeDict)
    ensures IncomeTypeByName(d.incomeType) == Some(i.incomeType)
    ensures d.amount == i.amount
  {
    EnumNamesRoundTrip(Single, CA, i.incomeType, Stock, K401);
    IncomeDict(i.incomeType.Name(), i.amount)
  }

  /** `[asset_to_dict(a) for a in assets]`. */
  function AssetDicts(assets: seq<Asset>): (ds: seq<AssetDict>)
    ensures |ds| == |assets|
    ensures forall k :: 0 <= k < |assets| ==>
      ds[k].ticker == assets[k].ticker && ds[k].shares == assets[k].shares && ds[k].costBasis == assets[k].costBasis
  {
    seq(|assets|, k requires 0 <= k < |assets| => AssetToDict(assets[k]))
  }

  /** `[income_to_dict(i) for i in incomes]`. */
  function IncomeDicts(incomes: seq<Income>): (ds: seq<IncomeDict>)
    ensures |ds| == |incomes|
    ensures forall k :: 0 <= k < |incomes| ==>
      IncomeTypeByName(ds[k].incomeType) == Some(incomes[k].incomeType) && ds[k].amount == incomes[k].amount
  {
    seq(|incomes|, k requires 0 <= k < |incomes| => IncomeToDict(incomes[k]))
  }

  /** `data.get(key, default)`. */
  function Get(data: Request, key: string, default: real): real {
    if key in data then data[key] else default
  }

  /** One pass of the loop body: QQQ takes `qqqShares`, otherwise NVDA takes `nvdaShares`. */
  function UpdatedAsset(a: Asset, data: Request): (b: Asset)
    ensures b.ticker == a.ticker && b.costBasis == a.costBasis && b.assetType == a.assetType
    ensures b.retirementAccountId == a.retirementAccountId
    ensures a.ticker == "QQQ" && QqqSharesKey in data ==> b.shares == data[QqqSharesKey]
    ensures a.ticker == "NVDA" && NvdaSharesKey in data ==> b.shares == data[NvdaSharesKey]
    ensures a.ticker == "QQQ" && QqqSharesKey !in data ==> b == a
    ensures a.ticker == "NVDA" && NvdaSharesKey !in data ==> b == a
    ensures a.ticker != "QQQ" && a.ticker != "NVDA" ==> b == a
  {
    if a.ticker == "QQQ" then a.(shares := Get(data, QqqSharesKey, a.shares))
    else if a.ticker == "NVDA" then a.(shares := Get(data, NvdaSharesKey, a.shares))
    else a
  }

  /** The state after lines 46-53 of `update_portfolio`: the first income's amount, then every
      matching asset's shares; an empty income list raises before anything is written. */
  function UpdateStore(s: StoreState, data: Request): (r: Result<StoreState, string>)
    ensures r.Failure? <==> |s.incomes| == 0
    ensures r.Failure? ==> r.error == IndexErrorMessage
    ensures r.Success? ==>
      && r.value.user == s.user
      && |r.value.incomes| == |s.incomes|
      && r.value.incomes[0] == s.incomes[0].(amount := Get(data, AnnualIncomeKey, s.incomes[0].amount))
      && r.value.incomes[1..] == s.incomes[1..]
      && |r.value.assets| == |s.assets|
      && forall k :: 0 <= k < |s.assets| ==> r.value.assets[k] == UpdatedAsset(s.assets[k], data)
  {
    if |s.incomes| == 0 then Failure(IndexErrorMessage)
    else
      var first := s.incomes[0].(amount := Get(data, AnnualIncomeKey, s.incomes[0].amount));
      Success(StoreState(
        s.user,
        [first] + s.incomes[1..],
        seq(|s.assets|, k requires 0 <= k < |s.assets| => UpdatedAsset(s.assets[k], data))))
  }

  /** What both routes return for a store: the net-worth report and the two lists, or the error
      `calculate_net_worth` raised. */
  function Response(s: StoreState, price: Calculations.PriceLookup): (r: Result<ApiResponse, string>)
    ensures r.Success? <==> s.user.filingStatus == Single && s.user.state == CA
    ensures r.Success? ==>
      && r.value.report == Calculations.NetWorth(s.user, s.incomes, s.assets, price).value
      && r.value.assets == AssetDicts(s.assets)
      && r.value.incomes == IncomeDicts(s.incomes)
  {
    match Calculations.NetWorth(s.user, s.incomes, s.assets, price)
    case Failure(e) => Failure(e)
    case Success(report) => Success(ApiResponse(report, AssetDicts(s.assets), IncomeDicts(s.incomes)))
  }

  /** The store as the module is imported: SINGLE / CA, one salary of 120000, and QQQ, NVDA and CASH. */
  function InitialState(): (s: StoreState)
    ensures s.user == User(Single, CA)
    ensures |s.incomes| == 1 && s.incomes[0].incomeType == Salary && s.incomes[0].amount == 120000.0
    ensures |s.assets| == 3
    ensures s.assets[0].ticker == "QQQ" && s.assets[0].shares == 100.0 && s.assets[0].costBasis == 30000.0
    ensures s.assets[1].ticker == "NVDA" && s.assets[1].shares == 50.0 && s.assets[1].costBasis == 10000.0
    ensures s.assets[2].ticker == "CASH" && s.assets[2].shares == 25000.0 && s.assets[2].costBasis == 1.0
  {
    StoreState(
      User(Single, CA),
      [NewIncome(Salary, 120000.0)],
      [NewAsset("QQQ", 100.0, 30000.0), NewAsset("NVDA", 50.0, 10000.0), NewAsset("CASH", 25000.0, 1.0)])
  }

  /** Applying the same request twice leaves the store as applying it once. */
  lemma UpdateIdempotent(s: StoreState, data: Request)
    requires UpdateStore(s, data).Success?
    ensures UpdateStore(UpdateStore(s, data).value, data) == UpdateStore(s, data)
  {
    var t := UpdateStore(s, data).value;
    var u := UpdateStore(t, data).value;
    assert u.incomes == [u.incomes[0]] + u.incomes[1..];
    assert t.incomes == [t.incomes[0]] + t.incomes[1..];
    assert forall k :: 0 <= k < |t.assets| ==> u.assets[k] == t.assets[k];
    assert u.assets == t.assets;
    assert u.incomes == t.incomes;
  }

  /** A request without any of the three keys leaves a store with an income unchanged. */
  lemma EmptyRequestChangesNothing(s: StoreState, data: Request)
    requires |s.incomes| > 0
    requires AnnualIncomeKey !in data && QqqSharesKey !in data && NvdaSharesKey !in data
    ensures UpdateStore(s, data) == Success(s)
  {
    var t := UpdateStore(s, data).value;
    assert t.incomes == [t.incomes[0]] + t.incomes[1..];
    assert s.incomes == [s.incomes[0]] + s.incomes[1..];
    assert t.assets == s.assets;
  }

  /** Both responses list the store's assets and incomes with the same length, order and fields. */
  lemma ResponseListsStore(s: StoreState, price: Calculations.PriceLookup)
    requires Response(s, price).Success?
    ensures |Response(s, price).value.assets| == |s.assets|
    ensures |Response(s, price).value.incomes| == |s.incomes|
    ensures forall k :: 0 <= k < |s.assets| ==> Response(s, price).value.assets[k].ticker == s.assets[k].ticker
    ensures forall k :: 0 <= k < |s.incomes| ==> Response(s, price).value.incomes[k].amount == s.incomes[k].amount
  {
  }

  /** The initial store answers: its user is SINGLE in CA. */
  lemma InitialStoreAnswers(price: Calculations.PriceLookup)
    ensures Response(InitialState(), price).Success?
    ensures Response(InitialState(), price).value.report.totalIncome == 120000.0
  {
    var s := InitialState();
    assert s.incomes[..0] == [];
  }

  /** The module-level store: the routes update its fields in place. */
  class Store {
    var user: User
    var incomes: seq<Income>
    var assets: seq<Asset>

    function State(): StoreState
      reads this
    {
      StoreState(user, incomes, assets)
    }

    constructor ()
      ensures State() == InitialState()
    {
      var s := InitialState();
      user := s.user;
      incomes := s.incomes;
      assets := s.assets;
    }

    /** GET /api/net_worth: reads the store and changes nothing. */
    method GetNetWorth(price: Calculations.PriceLookup) returns (r: Result<ApiResponse, string>)
      ensures r == Response(State(), price)
    {
      var report := Calculations.CalculateNetWorth(user, incomes, assets, price);
      if report.Failure? {
        return Failure(report.error);
      }
      r := Success(ApiResponse(report.value, AssetDicts(assets), IncomeDicts(incomes)));
    }

    /** PUT /api/portfolio: the first income's amount, then the shares of every QQQ and NVDA asset,
        in list order; then the response for the updated store. The writes stay when the net-worth
        calculation raises afterwards. */
    method UpdatePortfolio(data: Request, price: Calculations.PriceLookup) returns (r: Result<ApiResponse, string>)
      modifies this
      ensures |old(incomes)| == 0 ==> State() == old(State()) && r == Failure(IndexErrorMessage)
      ensures |old(incomes)| > 0 ==> UpdateStore(old(State()), data) == Success(State())
      ensures |old(incomes)| > 0 ==> r == Response(State(), price)
    {
      if |incomes| == 0 {
        return Failure(IndexErrorMessage);
      }
      incomes := incomes[0 := incomes[0].(amount := Get(data, AnnualIncomeKey, incomes[0].amount))];
      ghost var updatedIncomes := incomes;
      var i := 0;
      while i < |assets|
        invariant user == old(user) && incomes == updatedIncomes
        invariant 0 <= i <= |assets| == |old(assets)|
        invariant forall k :: 0 <= k < i ==> assets[k] == UpdatedAsset(old(assets)[k], data)
        invariant assets[i..] == old(assets)[i..]
      {
        assert assets[i] == old(assets)[i];
        assets := assets[i := UpdatedAsset(assets[i], data)];
        i := i + 1;
      }
      assert incomes == [incomes[0]] + old(incomes)[1..];
      assert assets == UpdateStore(old(State()), data).value.assets;
      r := GetNetWorth(price);
    }
  }
}
