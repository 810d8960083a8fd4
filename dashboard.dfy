/** The allocation pie chart of frontend/src/components/Dashboard.js: one slice per asset, worth its
    shares times the current price when there is one and times the whole cost basis otherwise,
    coloured from a palette of four in turn. */
module Dashboard {
  import opened ClientData
  import AssetTable

  /** Line 7. */
  const Colors: seq<string> := ["#0088FE", "#00C49F", "#FFBB28", "#FF8042"]

  datatype ChartEntry = ChartEntry(name: string, value: real)

  /** One entry of `chartData` (line 10). Without a truthy price the shares are multiplied by the
      whole cost basis. */
  function Entry(a: ClientAsset): (e: ChartEntry)
    ensures e.name == a.ticker
    ensures Truthy(a.currentPrice) ==> e.value == a.shares * a.currentPrice.value
    ensures !Truthy(a.currentPrice) ==> e.value == a.shares * a.costBasis
  {
    ChartEntry(a.ticker, a.shares * OrElse(a.currentPrice, a.costBasis))
  }

  /** Line 10: one entry per asset, in order. */
  function ChartData(assets: seq<ClientAsset>): (data: seq<ChartEntry>)
    ensures |data| == |assets|
    ensures forall k :: 0 <= k < |assets| ==> data[k] == Entry(assets[k]) && data[k].name == assets[k].ticker
  {
    seq(|assets|, k requires 0 <= k < |assets| => Entry(assets[k]))
  }

  /** Line 34: the fill of slice `index`. */
  function SliceColor(index: nat): (c: string)
    ensures c in Colors
  {
    Colors[index % |Colors|]
  }

  /** The palette repeats every four slices. */
  lemma ColorsCycle(index: nat)
    ensures SliceColor(index + 4) == SliceColor(index)
    ensures SliceColor(index) == Colors[index % 4]
  {
    assert (index + 4) % 4 == index % 4;
  }

  /** Neighbouring slices, and any four consecutive slices, have different colours. */
  lemma ConsecutiveSlicesDiffer(i: nat, j: nat)
    requires i < j < i + 4
    ensures SliceColor(i) != SliceColor(j)
  {
    assert i % 4 != j % 4;
  }

  /** A priced stock has the same value in the chart and in the table. */
  lemma ChartMatchesTableWhenPriced(a: ClientAsset)
    requires Truthy(a.currentPrice) && !AssetTable.IsCashOrHousing(a)
    ensures Entry(a).value == AssetTable.Value(a).marketValue
  {
  }

  /** Without a price the two disagree: the chart counts the cost basis once per share, while the
      table values an unpriced stock at 0 and cash or housing at its share count. */
  lemma ChartUsesBasisTimesShares(a: ClientAsset)
    requires !Truthy(a.currentPrice)
    ensures Entry(a).value == a.shares * a.costBasis
    ensures !AssetTable.IsCashOrHousing(a) ==> AssetTable.Value(a).marketValue == 0.0
    ensures AssetTable.IsCashOrHousing(a) ==> AssetTable.Value(a).marketValue == a.shares
  {
  }
}
