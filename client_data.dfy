/** The JSON records the frontend receives. A number field the response may lack (or hold as
    null) is an Option; a JavaScript `x || y` on such a field takes y whenever x is missing or 0. */
module ClientData {
  import opened Wrappers
  import Api
  import Models

  /** JavaScript truthiness of a number field: present and non-zero. */
  predicate Truthy(x: Option<real>) {
    x.Some? && x.value != 0.0
  }

  /** `x || fallback` on a number field. */
  function OrElse(x: Option<real>, fallback: real): (r: real)
    ensures Truthy(x) ==> r == x.value
    ensures !Truthy(x) ==> r == fallback
  {
    if Truthy(x) then x.value else fallback
  }

  /** An asset as the components read it; `asset_type` and `current_price` may be absent. */
  datatype ClientAsset = ClientAsset(
    ticker: string,
    assetType: Option<string>,
    shares: real,
    costBasis: real,
    currentPrice: Option<real>)

  datatype ClientIncome = ClientIncome(incomeType: string, amount: real)

  /** A debt carries the balance the backend computed. */
  datatype ClientDebt = ClientDebt(name: string, remainingBalance: real)

  datatype ClientRetirementAccount = ClientRetirementAccount(id: Option<string>, name: string)

  /** An asset of the in-memory backend's response: its dict has neither `asset_type` nor
      `current_price`. */
  function FromAssetDict(d: Api.AssetDict): (a: ClientAsset)
    ensures a.ticker == d.ticker && a.shares == d.shares && a.costBasis == d.costBasis
    ensures a.assetType.None? && !Truthy(a.currentPrice)
  {
    ClientAsset(d.ticker, None, d.shares, d.costBasis, None)
  }

  function FromIncomeDict(d: Api.IncomeDict): (i: ClientIncome)
    ensures i.incomeType == d.incomeType && i.amount == d.amount
  {
    ClientIncome(d.incomeType, d.amount)
  }

  /** A debt as the frontend reads it, assuming its `remaining_balance` is the one that
      `Debt.remaining_balance` computes; no endpoint of the backend sends debts. */
  function FromDebt(d: Models.Debt): (c: ClientDebt)
    ensures c.name == d.name && c.remainingBalance == Models.RemainingBalance(d)
    ensures c.remainingBalance >= 0.0
  {
    ClientDebt(d.name, Models.RemainingBalance(d))
  }

  function FromAssetDicts(ds: seq<Api.AssetDict>): (as_: seq<ClientAsset>)
    ensures |as_| == |ds|
    ensures forall k :: 0 <= k < |ds| ==> as_[k] == FromAssetDict(ds[k])
  {
    seq(|ds|, k requires 0 <= k < |ds| => FromAssetDict(ds[k]))
  }

  function FromIncomeDicts(ds: seq<Api.IncomeDict>): (is_: seq<ClientIncome>)
    ensures |is_| == |ds|
    ensures forall k :: 0 <= k < |ds| ==> is_[k] == FromIncomeDict(ds[k])
  {
    seq(|ds|, k requires 0 <= k < |ds| => FromIncomeDict(ds[k]))
  }
}
