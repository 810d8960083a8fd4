/** The per-asset rows of frontend/src/components/AssetTable.js: the five derived numbers of each
    row and which cells show a dash, a money amount or a signed gain. */
module AssetTable {
  import opened Wrappers
  import opened ClientData
  import Api

  /** Cash and housing are valued at one unit per share. */
  predicate IsCashOrHousing(a: ClientAsset) {
    a.assetType == Some("CASH") || a.assetType == Some("HOUSING")
  }

  /** The five numbers a row derives from its asset. */
  datatype Valuation = Valuation(
    marketPrice: real,
    costPerShare: real,
    marketValue: real,
    gainLoss: real,
    gainLossPercent: real)

  /** Lines 20-24. Market value never falls back to the cost basis: an unpriced stock is worth 0. */
  function Value(a: ClientAsset): (v: Valuation)
    ensures Truthy(a.currentPrice) ==> v.marketPrice == a.currentPrice.value
    ensures !Truthy(a.currentPrice) ==> v.marketPrice == (if IsCashOrHousing(a) then 1.0 else 0.0)
    ensures IsCashOrHousing(a) ==> v.marketValue == a.shares
    ensures !IsCashOrHousing(a) && Truthy(a.currentPrice) ==> v.marketValue == a.shares * a.currentPrice.value
    ensures !IsCashOrHousing(a) && !Truthy(a.currentPrice) ==> v.marketValue == 0.0
    ensures a.shares > 0.0 ==> v.costPerShare * a.shares == a.costBasis
    ensures a.shares <= 0.0 ==> v.costPerShare == 0.0
    ensures v.marketValue == a.costBasis + v.gainLoss
    ensures a.costBasis > 0.0 ==> v.gainLossPercent * a.costBasis == v.gainLoss * 100.0
    ensures a.costBasis > 0.0 ==> (v.gainLossPercent >= 0.0 <==> v.gainLoss >= 0.0)
    ensures a.costBasis <= 0.0 ==> v.gainLossPercent == 0.0
  {
    var marketPrice := OrElse(a.currentPrice, if IsCashOrHousing(a) then 1.0 else 0.0);
    var costPerShare := if a.shares > 0.0 then a.costBasis / a.shares else 0.0;
    var marketValue := if IsCashOrHousing(a) then a.shares else a.shares * marketPrice;
    var gainLoss := marketValue - a.costBasis;
    var gainLossPercent := if a.costBasis > 0.0 then (gainLoss / a.costBasis) * 100.0 else 0.0;
    Valuation(marketPrice, costPerShare, marketValue, gainLoss, gainLossPercent)
  }

  /** A table cell: a dash, a money amount, or a gain with its sign, magnitude and percentage. */
  datatype Cell = Dash | Money(amount: real) | Signed(sign: string, magnitude: real, percent: real)

  /** The colour class of the gain cell. */
  datatype Tone = Green | Red

  datatype Row = Row(
    assetType: Option<string>,
    ticker: string,
    shares: real,
    costPerShare: Cell,
    marketPrice: Cell,
    marketValue: Cell,
    gainLoss: Cell,
    tone: Tone)

  function Abs(x: real): (r: real)
    ensures r >= 0.0 && (r == x || r == -x)
  {
    if x < 0.0 then -x else x
  }

  /** Lines 27-47: cash and housing rows show a dash for cost per share, price and gain; every row
      shows its market value, and the tone follows the sign of the gain even where it is hidden. */
  function RowOf(a: ClientAsset): (r: Row)
    ensures r.assetType == a.assetType && r.ticker == a.ticker && r.shares == a.shares
    ensures r.marketValue == Money(Value(a).marketValue)
    ensures IsCashOrHousing(a) <==> r.costPerShare == Dash
    ensures IsCashOrHousing(a) <==> r.marketPrice == Dash
    ensures IsCashOrHousing(a) <==> r.gainLoss == Dash
    ensures !IsCashOrHousing(a) ==>
      && r.costPerShare == Money(Value(a).costPerShare)
      && r.marketPrice == Money(Value(a).marketPrice)
      && r.gainLoss.Signed?
      && (r.gainLoss.sign == "+" <==> Value(a).gainLoss >= 0.0)
      && r.gainLoss.magnitude >= 0.0
      && (r.gainLoss.magnitude == Value(a).gainLoss || r.gainLoss.magnitude == -Value(a).gainLoss)
      && r.gainLoss.percent == Value(a).gainLossPercent
    ensures r.tone == Green <==> Value(a).gainLoss >= 0.0
  {
    var v := Value(a);
    var shown := !IsCashOrHousing(a);
    Row(
      a.assetType,
      a.ticker,
      a.shares,
      if shown then Money(v.costPerShare) else Dash,
      if shown then Money(v.marketPrice) else Dash,
      Money(v.marketValue),
      if shown then Signed(if v.gainLoss >= 0.0 then "+" else "", Abs(v.gainLoss), v.gainLossPercent) else Dash,
      if v.gainLoss >= 0.0 then Green else Red)
  }

  /** Line 19: one row per asset, in order. */
  function Rows(assets: seq<ClientAsset>): (rows: seq<Row>)
    ensures |rows| == |assets|
    ensures forall k :: 0 <= k < |assets| ==> rows[k] == RowOf(assets[k]) && rows[k].ticker == assets[k].ticker
  {
    seq(|assets|, k requires 0 <= k < |assets| => RowOf(assets[k]))
  }

  /** The rows of a concatenation are the rows of the parts. */
  lemma RowsConcat(xs: seq<ClientAsset>, ys: seq<ClientAsset>)
    ensures Rows(xs + ys) == Rows(xs) + Rows(ys)
  {
    var l := Rows(xs + ys);
    var r := Rows(xs) + Rows(ys);
    assert |l| == |r|;
    forall k | 0 <= k < |l|
      ensures l[k] == r[k]
    {
      if k < |xs| {
        assert (xs + ys)[k] == xs[k];
      } else {
        assert (xs + ys)[k] == ys[k - |xs|];
      }
    }
  }

  /** An asset as the in-memory backend sends it (no type, no price) is worth 0 in the table and
      shows its whole cost basis as a loss. */
  lemma UnpricedBackendAsset(d: Api.AssetDict)
    requires d.costBasis > 0.0
    ensures Value(FromAssetDict(d)).marketValue == 0.0
    ensures Value(FromAssetDict(d)).gainLoss == -d.costBasis
    ensures Value(FromAssetDict(d)).gainLossPercent == -100.0
    ensures RowOf(FromAssetDict(d)).tone == Red
  {
    var a := FromAssetDict(d);
    var v := Value(a);
    assert !IsCashOrHousing(a);
    assert v.gainLoss == -d.costBasis;
    assert v.gainLossPercent == (v.gainLoss / d.costBasis) * 100.0;
    assert -d.costBasis / d.costBasis == -1.0;
  }
}
