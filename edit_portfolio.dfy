/** The edit form of frontend/src/components/EditPortfolio.js: three fields that start at 0, are
    loaded from the first QQQ and NVDA holdings and the first income, are overwritten by the inputs,
    and are sent as numbers. `Number()` on what the user typed is a parameter. */
module EditPortfolio {
  import opened Wrappers
  import opened ClientData
  import Models
  import Api

  /** A field holds a number (its initial value, or one loaded from the data) or the text last typed
      into its input (`e.target.value` is a string). */
  datatype FieldValue = Num(x: real) | Typed(text: string)

  /** `Number(text)`. */
  type NumberParser = string -> real

  datatype Form = Form(qqqShares: FieldValue, nvdaShares: FieldValue, annualIncome: FieldValue)

  /** Lines 4-6. */
  const InitialForm := Form(Num(0.0), Num(0.0), Num(0.0))

  /** The index of the first asset at or after `from` with the ticker. */
  function FirstIndex(assets: seq<ClientAsset>, ticker: string, from: nat): (r: Option<nat>)
    ensures r.Some? ==> from <= r.value < |assets| && assets[r.value].ticker == ticker
    ensures r.Some? ==> forall j :: from <= j < r.value ==> assets[j].ticker != ticker
    ensures r.None? ==> forall j :: from <= j < |assets| ==> assets[j].ticker != ticker
    decreases |assets| - from
  {
    if from >= |assets| then None
    else if assets[from].ticker == ticker then Some(from)
    else FirstIndex(assets, ticker, from + 1)
  }

  /** `assets.find(asset => asset.ticker === ticker)`. */
  function Find(assets: seq<ClientAsset>, ticker: string): (r: Option<ClientAsset>)
    ensures r.Some? ==> r.value.ticker == ticker && r.value in assets
    ensures r.None? <==> forall j :: 0 <= j < |assets| ==> assets[j].ticker != ticker
  {
    match FirstIndex(assets, ticker, 0)
    case None => None
    case Some(i) => Some(assets[i])
  }

  /** The effect of lines 8-22: each field is loaded only when there is something to load from. */
  function Loaded(f: Form, assets: seq<ClientAsset>, incomes: seq<ClientIncome>): (g: Form)
    ensures Find(assets, "QQQ").Some? ==> g.qqqShares == Num(Find(assets, "QQQ").value.shares)
    ensures Find(assets, "QQQ").None? ==> g.qqqShares == f.qqqShares
    ensures Find(assets, "NVDA").Some? ==> g.nvdaShares == Num(Find(assets, "NVDA").value.shares)
    ensures Find(assets, "NVDA").None? ==> g.nvdaShares == f.nvdaShares
    ensures |incomes| > 0 ==> g.annualIncome == Num(incomes[0].amount)
    ensures |incomes| == 0 ==> g.annualIncome == f.annualIncome
  {
    var qqq := Find(assets, "QQQ");
    var nvda := Find(assets, "NVDA");
    Form(
      if qqq.Some? then Num(qqq.value.shares) else f.qqqShares,
      if nvda.Some? then Num(nvda.value.shares) else f.nvdaShares,
      if |incomes| > 0 then Num(incomes[0].amount) else f.annualIncome)
  }

  /** `Number(field)`: a number stays itself. */
  function NumberOf(v: FieldValue, parse: NumberParser): (x: real)
    ensures v.Num? ==> x == v.x
    ensures v.Typed? ==> x == parse(v.text)
  {
    match v
    case Num(x) => x
    case Typed(text) => parse(text)
  }

  /** Lines 25-29: the body of the PUT request. */
  function Payload(f: Form, parse: NumberParser): (p: Api.Request)
    ensures p.Keys == {Api.QqqSharesKey, Api.NvdaSharesKey, Api.AnnualIncomeKey}
    ensures p[Api.QqqSharesKey] == NumberOf(f.qqqShares, parse)
    ensures p[Api.NvdaSharesKey] == NumberOf(f.nvdaShares, parse)
    ensures p[Api.AnnualIncomeKey] == NumberOf(f.annualIncome, parse)
  {
    map[Api.QqqSharesKey := NumberOf(f.qqqShares, parse),
        Api.NvdaSharesKey := NumberOf(f.nvdaShares, parse),
        Api.AnnualIncomeKey := NumberOf(f.annualIncome, parse)]
  }

  /** No two assets of the store carry the ticker. */
  predicate AtMostOnce(assets: seq<Models.Asset>, ticker: string) {
    forall i, j :: 0 <= i < |assets| && 0 <= j < |assets| && assets[i].ticker == ticker && assets[j].ticker == ticker ==> i == j
  }

  /** The form loaded from a response of the in-memory backend. */
  function LoadedFromStore(f: Form, s: Api.StoreState): Form {
    Loaded(f, FromAssetDicts(Api.AssetDicts(s.assets)), FromIncomeDicts(Api.IncomeDicts(s.incomes)))
  }

  /** The loaded QQQ or NVDA field holds the shares of the only asset with that ticker. */
  lemma LoadedSharesOfUniqueTicker(s: Api.StoreState, ticker: string, k: nat)
    requires k < |s.assets| && s.assets[k].ticker == ticker && AtMostOnce(s.assets, ticker)
    ensures Find(FromAssetDicts(Api.AssetDicts(s.assets)), ticker) == Some(FromAssetDicts(Api.AssetDicts(s.assets))[k])
    ensures FromAssetDicts(Api.AssetDicts(s.assets))[k].shares == s.assets[k].shares
  {
    var client := FromAssetDicts(Api.AssetDicts(s.assets));
    var i := FirstIndex(client, ticker, 0);
    assert client[k].ticker == ticker;
    assert i.Some?;
    assert s.assets[i.value].ticker == client[i.value].ticker;
  }

  /** Saving a form nobody edited after it loaded leaves the in-memory store as it was, provided the
      store has an income and holds QQQ and NVDA at most once each: every field sent back is the
      value the store already has. Whatever the fields held before loading does not matter. */
  lemma NoEditSaveKeepsStore(s: Api.StoreState, before: Form, parse: NumberParser)
    requires |s.incomes| > 0
    requires AtMostOnce(s.assets, "QQQ") && AtMostOnce(s.assets, "NVDA")
    ensures Api.UpdateStore(s, Payload(LoadedFromStore(before, s), parse)) == Success(s)
  {
    var f := LoadedFromStore(before, s);
    var p := Payload(f, parse);
    var t := Api.UpdateStore(s, p).value;
    assert p[Api.AnnualIncomeKey] == s.incomes[0].amount;
    assert t.incomes[0] == s.incomes[0];
    assert t.incomes == [t.incomes[0]] + t.incomes[1..];
    assert s.incomes == [s.incomes[0]] + s.incomes[1..];
    forall k | 0 <= k < |s.assets|
      ensures t.assets[k] == s.assets[k]
    {
      if s.assets[k].ticker == "QQQ" {
        LoadedSharesOfUniqueTicker(s, "QQQ", k);
      } else if s.assets[k].ticker == "NVDA" {
        LoadedSharesOfUniqueTicker(s, "NVDA", k);
      }
    }
    assert t.assets == s.assets;
  }

  /** With two QQQ holdings of different sizes the unedited save does change the store: the second
      takes the first one's shares. */
  lemma DuplicateTickerIsOverwritten(parse: NumberParser)
    ensures var s := Api.StoreState(Models.User(Models.Single, Models.CA),
                                     [Models.NewIncome(Models.Salary, 1.0)],
                                     [Models.NewAsset("QQQ", 1.0, 1.0), Models.NewAsset("QQQ", 2.0, 1.0)]);
      Api.UpdateStore(s, Payload(LoadedFromStore(InitialForm, s), parse)).value.assets[1].shares == 1.0
  {
    var s := Api.StoreState(Models.User(Models.Single, Models.CA),
                            [Models.NewIncome(Models.Salary, 1.0)],
                            [Models.NewAsset("QQQ", 1.0, 1.0), Models.NewAsset("QQQ", 2.0, 1.0)]);
    var client := FromAssetDicts(Api.AssetDicts(s.assets));
    assert client[0].ticker == "QQQ";
    assert Find(client, "QQQ") == Some(client[0]);
  }

  /** The component's state. */
  class Editor {
    var qqqShares: FieldValue
    var nvdaShares: FieldValue
    var annualIncome: FieldValue

    function Fields(): Form
      reads this
    {
      Form(qqqShares, nvdaShares, annualIncome)
    }

    constructor ()
      ensures Fields() == InitialForm
    {
      qqqShares := Num(0.0);
      nvdaShares := Num(0.0);
      annualIncome := Num(0.0);
    }

    /** The effect, run whenever `assets` or `incomes` change. */
    method Load(assets: seq<ClientAsset>, incomes: seq<ClientIncome>)
      modifies this
      ensures Fields() == Loaded(old(Fields()), assets, incomes)
    {
      var qqq := Find(assets, "QQQ");
      if qqq.Some? {
        qqqShares := Num(qqq.value.shares);
      }
      var nvda := Find(assets, "NVDA");
      if nvda.Some? {
        nvdaShares := Num(nvda.value.shares);
      }
      if |incomes| > 0 {
        annualIncome := Num(incomes[0].amount);
      }
    }

    /** Line 41. */
    method OnQqqSharesChange(text: string)
      modifies this
      ensures Fields() == old(Fields()).(qqqShares := Typed(text))
    {
      qqqShares := Typed(text);
    }

    /** Line 52. */
    method OnNvdaSharesChange(text: string)
      modifies this
      ensures Fields() == old(Fields()).(nvdaShares := Typed(text))
    {
      nvdaShares := Typed(text);
    }

    /** Line 63. */
    method OnAnnualIncomeChange(text: string)
      modifies this
      ensures Fields() == old(Fields()).(annualIncome := Typed(text))
    {
      annualIncome := Typed(text);
    }

    /** `handleSave`: what it passes to `onSave`; the form is not changed. */
    method HandleSave(parse: NumberParser) returns (payload: Api.Request)
      ensures payload == Payload(Fields(), parse)
      ensures payload.Keys == {Api.QqqSharesKey, Api.NvdaSharesKey, Api.AnnualIncomeKey}
    {
      payload := map[Api.QqqSharesKey := NumberOf(qqqShares, parse),
                     Api.NvdaSharesKey := NumberOf(nvdaShares, parse),
                     Api.AnnualIncomeKey := NumberOf(annualIncome, parse)];
    }
  }
}
