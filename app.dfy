/** `MainContent` of frontend/src/App.js: the component state its handlers set after a request
    settles, the rule for when the loading screen replaces the page, and the totals the income,
    investment and debt views compute. Each request's outcome is an input: the response data, or the
    error it threw. */
module App {
  import opened Wrappers
  import opened ClientData
  import Models
  import Api
  import Calculations
  import AssetTable
  import Dashboard

  /** `taxLiability`; a key the response lacks leaves its entry undefined (None). */
  datatype TaxLiability = TaxLiability(total: Option<real>, federal: Option<real>, state: Option<real>, fica: Option<real>)

  /** `userTaxInfo`. */
  datatype TaxInfo = TaxInfo(filingStatus: Option<string>, state: Option<string>)

  /** The keys of `response.data` the handlers read. */
  datatype ResponseData = ResponseData(
    assets: seq<ClientAsset>,
    incomes: seq<ClientIncome>,
    debts: seq<ClientDebt>,
    retirementAccounts: Option<seq<ClientRetirementAccount>>,
    realTimeNetWorth: Option<real>,
    estimatedTaxLiability: Option<real>,
    estimatedFederalTax: Option<real>,
    estimatedStateTax: Option<real>,
    estimatedFicaTax: Option<real>,
    filingStatus: Option<string>,
    state: Option<string>)

  /** How a request settles: with its response, or with a thrown error carrying its message and,
      for an HTTP error, the `error` field of the server's body. */
  datatype Reply = Ok(data: ResponseData) | Thrown(message: string, serverError: Option<string>)

  /** The component state the handlers set (the active view belongs to the layout and is left out). */
  datatype View = View(
    netWorth: Option<real>,
    assets: seq<ClientAsset>,
    incomes: seq<ClientIncome>,
    debts: seq<ClientDebt>,
    retirementAccounts: seq<ClientRetirementAccount>,
    taxLiability: TaxLiability,
    userTaxInfo: TaxInfo,
    error: Option<string>,
    loading: bool,
    isModalOpen: bool,
    modalTab: string)

  /** Lines 49-64: empty collections, zero amounts, SINGLE in CA, and loading. */
  function InitialView(): (v: View)
    ensures v.loading && !v.isModalOpen && v.error.None? && v.modalTab == "income"
    ensures v.assets == [] && v.incomes == [] && v.debts == [] && v.retirementAccounts == []
    ensures v.netWorth == Some(0.0)
    ensures v.userTaxInfo == TaxInfo(Some("SINGLE"), Some("CA"))
  {
    View(
      Some(0.0), [], [], [], [],
      TaxLiability(Some(0.0), Some(0.0), Some(0.0), Some(0.0)),
      TaxInfo(Some("SINGLE"), Some("CA")),
      None, true, false, "income")
  }

  /** Line 179: the loading screen replaces the page unless the edit modal is open. */
  predicate ShowsLoadingScreen(v: View) {
    v.loading && !v.isModalOpen
  }

  function TaxLiabilityOf(d: ResponseData): (t: TaxLiability)
    ensures t.total == d.estimatedTaxLiability && t.federal == d.estimatedFederalTax
    ensures t.state == d.estimatedStateTax && t.fica == d.estimatedFicaTax
  {
    TaxLiability(d.estimatedTaxLiability, d.estimatedFederalTax, d.estimatedStateTax, d.estimatedFicaTax)
  }

  /** `response.data.retirement_accounts || []`. */
  function RetirementAccountsOf(d: ResponseData): (accounts: seq<ClientRetirementAccount>)
    ensures d.retirementAccounts.None? ==> accounts == []
    ensures d.retirementAccounts.Some? ==> accounts == d.retirementAccounts.value
  {
    d.retirementAccounts.GetOr([])
  }

  /** The setters of a successful fetch or save (lines 79-93, 116-130). */
  function WithResponse(v: View, d: ResponseData): (w: View)
    ensures w.assets == d.assets && w.incomes == d.incomes && w.debts == d.debts
    ensures w.retirementAccounts == RetirementAccountsOf(d)
    ensures w.netWorth == d.realTimeNetWorth && w.taxLiability == TaxLiabilityOf(d)
    ensures w.userTaxInfo == TaxInfo(d.filingStatus, d.state)
    ensures w.error == v.error && w.loading == v.loading && w.isModalOpen == v.isModalOpen && w.modalTab == v.modalTab
  {
    v.(assets := d.assets, incomes := d.incomes, debts := d.debts,
       retirementAccounts := RetirementAccountsOf(d),
       netWorth := d.realTimeNetWorth, taxLiability := TaxLiabilityOf(d),
       userTaxInfo := TaxInfo(d.filingStatus, d.state))
  }

  /** `error.response?.data?.error || error.message`: the server's message unless it is missing or empty. */
  function ErrorMessage(message: string, serverError: Option<string>): (m: string)
    ensures serverError.Some? && serverError.value != "" ==> m == serverError.value
    ensures serverError.None? || serverError.value == "" ==> m == message
  {
    if serverError.Some? && serverError.value != "" then serverError.value else message
  }

  /** `fetchData` once the request settles (lines 66-99). A success does not clear an earlier error;
      a failure records only the transport message. */
  function AfterFetch(v: View, reply: Reply): (w: View)
    ensures !w.loading && w.isModalOpen == v.isModalOpen && w.modalTab == v.modalTab
    ensures reply.Ok? ==> w == WithResponse(v, reply.data).(loading := false)
    ensures reply.Thrown? ==> w == v.(error := Some(reply.message), loading := false)
  {
    match reply
    case Ok(d) => WithResponse(v, d).(loading := false)
    case Thrown(message, _) => v.(error := Some(message), loading := false)
  }

  /** Lines 106 and 143: a save starts by setting `loading`. */
  function Started(v: View): (w: View)
    ensures w.loading && w == v.(loading := true)
    ensures ShowsLoadingScreen(w) <==> !v.isModalOpen
  {
    v.(loading := true)
  }

  /** `handleSave` once the PUT settles (lines 115-139). Success replaces everything from the
      response and closes the modal; failure changes only the error and the loading flag. */
  function AfterSave(v: View, reply: Reply): (w: View)
    ensures !w.loading && w.modalTab == v.modalTab
    ensures reply.Ok? ==> w == WithResponse(v, reply.data).(isModalOpen := false, loading := false, error := None)
    ensures reply.Thrown? ==>
      w == v.(error := Some(ErrorMessage(reply.message, reply.serverError)), loading := false)
  {
    match reply
    case Ok(d) => WithResponse(v, d).(isModalOpen := false, loading := false, error := None)
    case Thrown(message, serverError) => v.(error := Some(ErrorMessage(message, serverError)), loading := false)
  }

  /** `handleSaveTaxInfo` once the PUT settles (lines 152-171): only net worth, tax liability and
      filing information come from the response; the modal is left as it was. */
  function AfterSaveTaxInfo(v: View, reply: Reply): (w: View)
    ensures !w.loading && w.isModalOpen == v.isModalOpen && w.modalTab == v.modalTab
    ensures w.assets == v.assets && w.incomes == v.incomes && w.debts == v.debts
    ensures w.retirementAccounts == v.retirementAccounts
    ensures reply.Ok? ==>
      && w.netWorth == reply.data.realTimeNetWorth
      && w.taxLiability == TaxLiabilityOf(reply.data)
      && w.userTaxInfo == TaxInfo(reply.data.filingStatus, reply.data.state)
      && w.error.None?
    ensures reply.Thrown? ==>
      w == v.(error := Some(ErrorMessage(reply.message, reply.serverError)), loading := false)
  {
    match reply
    case Ok(d) =>
      v.(netWorth := d.realTimeNetWorth, taxLiability := TaxLiabilityOf(d),
         userTaxInfo := TaxInfo(d.filingStatus, d.state), loading := false, error := None)
    case Thrown(message, serverError) => v.(error := Some(ErrorMessage(message, serverError)), loading := false)
  }

  /** Every handler path ends with `loading` false, so the loading screen is gone afterwards. */
  lemma EveryHandlerEndsLoading(v: View, reply: Reply)
    ensures !ShowsLoadingScreen(AfterFetch(v, reply))
    ensures !ShowsLoadingScreen(AfterSave(Started(v), reply))
    ensures !ShowsLoadingScreen(AfterSaveTaxInfo(Started(v), reply))
  {
  }

  /** A failed save from the open modal keeps the modal open over the same collections, so the form
      and its edits stay on screen; the error shown is the server's, if it sent one. */
  lemma FailedSaveKeepsEdits(v: View, message: string, serverError: string)
    requires v.isModalOpen && serverError != ""
    ensures var w := AfterSave(Started(v), Thrown(message, Some(serverError)));
      && w.isModalOpen && !ShowsLoadingScreen(w)
      && w.assets == v.assets && w.incomes == v.incomes && w.debts == v.debts
      && w.retirementAccounts == v.retirementAccounts
      && w.error == Some(serverError)
  {
  }

  /** A save from the open modal never shows the loading screen while in flight. */
  lemma SaveInFlightKeepsModal(v: View)
    requires v.isModalOpen
    ensures !ShowsLoadingScreen(Started(v))
  {
  }

  /** A fetch that succeeds after a failed one still shows the old error. */
  lemma FetchKeepsStaleError(v: View, message: string, d: ResponseData)
    ensures AfterFetch(AfterFetch(v, Thrown(message, None)), Ok(d)).error == Some(message)
  {
  }

  /** A successful save clears the error a failed save left. */
  lemma SaveClearsError(v: View, message: string, serverError: Option<string>, d: ResponseData)
    ensures AfterSave(AfterSave(v, Thrown(message, serverError)), Ok(d)).error.None?
  {
  }

  /** Line 174: `openEditModal(tab)`. */
  function OpenedEditModal(v: View, tab: string): (w: View)
    ensures w.isModalOpen && w.modalTab == tab && !ShowsLoadingScreen(w)
    ensures w.(isModalOpen := v.isModalOpen, modalTab := v.modalTab) == v
  {
    v.(modalTab := tab, isModalOpen := true)
  }

  /** Line 188: `incomes.reduce((acc, inc) => acc + inc.amount, 0)`. */
  function TotalAnnualIncome(incomes: seq<ClientIncome>): real
    decreases |incomes|
  {
    if |incomes| == 0 then 0.0
    else TotalAnnualIncome(incomes[..|incomes| - 1]) + incomes[|incomes| - 1].amount
  }

  /** Line 189. */
  function MonthlyIncome(incomes: seq<ClientIncome>): (m: real)
    ensures m * 12.0 == TotalAnnualIncome(incomes)
  {
    TotalAnnualIncome(incomes) / 12.0
  }

  /** For incomes with the same amounts, the frontend's total equals the backend's `total_income`. */
  lemma {:induction false} IncomeTotalsAgree(client: seq<ClientIncome>, incomes: seq<Models.Income>)
    requires |client| == |incomes|
    requires forall k :: 0 <= k < |client| ==> client[k].amount == incomes[k].amount
    ensures TotalAnnualIncome(client) == Calculations.TotalIncome(incomes)
    decreases |client|
  {
    if |client| > 0 {
      var n := |client| - 1;
      IncomeTotalsAgree(client[..n], incomes[..n]);
    }
  }

  /** The income view of the in-memory backend's response shows the income the backend taxed. */
  lemma IncomeViewMatchesBackend(s: Api.StoreState)
    ensures TotalAnnualIncome(FromIncomeDicts(Api.IncomeDicts(s.incomes))) == Calculations.TotalIncome(s.incomes)
  {
    IncomeTotalsAgree(FromIncomeDicts(Api.IncomeDicts(s.incomes)), s.incomes);
  }

  /** The term line 210 adds for one asset; None is NaN. Without a truthy price the factor is
      `cost_basis / shares || 0`: with no shares that is NaN (falsy, so 0) when the basis is 0 too,
      and an infinity (truthy, and 0 times it is NaN) otherwise. */
  function AssetValueTerm(a: ClientAsset): (t: Option<real>)
    ensures Truthy(a.currentPrice) ==> t == Some(a.shares * a.currentPrice.value)
    ensures !Truthy(a.currentPrice) && a.shares != 0.0 ==> t == Some(a.costBasis)
    ensures !Truthy(a.currentPrice) && a.shares == 0.0 ==> (t.Some? <==> a.costBasis == 0.0)
    ensures t.Some? && a.shares == 0.0 ==> t.value == 0.0
  {
    if Truthy(a.currentPrice) then Some(a.shares * a.currentPrice.value)
    else if a.shares != 0.0 then Some(a.shares * OrElse(Some(a.costBasis / a.shares), 0.0))
    else if a.costBasis == 0.0 then Some(0.0)
    else None
  }

  /** Line 210: the reduce over the assets; once a term is NaN the total stays NaN. */
  function TotalAssetValue(assets: seq<ClientAsset>): (t: Option<real>)
    decreases |assets|
  {
    if |assets| == 0 then Some(0.0)
    else
      var last := AssetValueTerm(assets[|assets| - 1]);
      match TotalAssetValue(assets[..|assets| - 1])
      case None => None
      case Some(acc) => if last.None? then None else Some(acc + last.value)
  }

  /** The total is NaN exactly when some asset's term is. */
  lemma {:induction false} TotalAssetValueUndefined(assets: seq<ClientAsset>)
    ensures TotalAssetValue(assets).None? <==> exists k :: 0 <= k < |assets| && AssetValueTerm(assets[k]).None?
    decreases |assets|
  {
    if |assets| > 0 {
      var n := |assets| - 1;
      TotalAssetValueUndefined(assets[..n]);
      if TotalAssetValue(assets).None? && AssetValueTerm(assets[n]).Some? {
        var k :| 0 <= k < n && AssetValueTerm(assets[..n][k]).None?;
        assert assets[..n][k] == assets[k];
      }
      if exists k :: 0 <= k < |assets| && AssetValueTerm(assets[k]).None? {
        var k :| 0 <= k < |assets| && AssetValueTerm(assets[k]).None?;
        if k < n {
          assert assets[..n][k] == assets[k];
        }
      }
    }
  }

  /** An unpriced stock holding is valued three ways: at its cost basis in the investments total,
      at 0 in the asset table, and at shares times its cost basis in the allocation chart. */
  lemma UnpricedHoldingValuedThreeWays(a: ClientAsset)
    requires !Truthy(a.currentPrice) && a.shares > 0.0 && !AssetTable.IsCashOrHousing(a)
    ensures AssetValueTerm(a) == Some(a.costBasis)
    ensures AssetTable.Value(a).marketValue == 0.0
    ensures Dashboard.Entry(a).value == a.shares * a.costBasis
  {
  }

  /** Sum of the cost bases, in order. */
  function TotalCostBasis(assets: seq<ClientAsset>): real
    decreases |assets|
  {
    if |assets| == 0 then 0.0
    else TotalCostBasis(assets[..|assets| - 1]) + assets[|assets| - 1].costBasis
  }

  /** Holdings with shares and no price are counted at their cost basis. */
  lemma {:induction false} UnpricedHoldingsAtCost(assets: seq<ClientAsset>)
    requires forall k :: 0 <= k < |assets| ==> !Truthy(assets[k].currentPrice) && assets[k].shares > 0.0
    ensures TotalAssetValue(assets) == Some(TotalCostBasis(assets))
    decreases |assets|
  {
    if |assets| > 0 {
      UnpricedHoldingsAtCost(assets[..|assets| - 1]);
    }
  }

  /** Line 223: `debts.reduce((acc, d) => acc + d.remaining_balance, 0)`. */
  function TotalDebtBalance(debts: seq<ClientDebt>): real
    decreases |debts|
  {
    if |debts| == 0 then 0.0
    else TotalDebtBalance(debts[..|debts| - 1]) + debts[|debts| - 1].remainingBalance
  }

  /** Whatever `remaining_balance` values the response carries: when none is negative, neither is
      their total, and each is at most the total. */
  lemma {:induction false} DebtTotalOfBalances(debts: seq<ClientDebt>)
    requires forall k :: 0 <= k < |debts| ==> debts[k].remainingBalance >= 0.0
    ensures TotalDebtBalance(debts) >= 0.0
    ensures forall k :: 0 <= k < |debts| ==> debts[k].remainingBalance <= TotalDebtBalance(debts)
    decreases |debts|
  {
    if |debts| > 0 {
      var n := |debts| - 1;
      DebtTotalOfBalances(debts[..n]);
      forall k | 0 <= k < n
        ensures debts[k].remainingBalance <= TotalDebtBalance(debts)
      {
        assert debts[..n][k] == debts[k];
      }
    }
  }

  /** Balances computed as `Debt.remaining_balance` computes them are never negative, so the bounds
      above hold for them. */
  lemma DebtTotalBounds(debts: seq<Models.Debt>)
    ensures var client := seq(|debts|, k requires 0 <= k < |debts| => FromDebt(debts[k]));
      && TotalDebtBalance(client) >= 0.0
      && forall k :: 0 <= k < |debts| ==> Models.RemainingBalance(debts[k]) <= TotalDebtBalance(client)
  {
    var client := seq(|debts|, k requires 0 <= k < |debts| => FromDebt(debts[k]));
    forall k | 0 <= k < |debts|
      ensures client[k].remainingBalance == Models.RemainingBalance(debts[k]) >= 0.0
    {
    }
    DebtTotalOfBalances(client);
  }

  /** The component's state; the handlers run their setters on it in turn. */
  class MainContent {
    var netWorth: Option<real>
    var assets: seq<ClientAsset>
    var incomes: seq<ClientIncome>
    var debts: seq<ClientDebt>
    var retirementAccounts: seq<ClientRetirementAccount>
    var taxLiability: TaxLiability
    var userTaxInfo: TaxInfo
    var error: Option<string>
    var loading: bool
    var isModalOpen: bool
    var modalTab: string

    function Current(): View
      reads this
    {
      View(netWorth, assets, incomes, debts, retirementAccounts, taxLiability, userTaxInfo,
           error, loading, isModalOpen, modalTab)
    }

    constructor ()
      ensures Current() == InitialView()
    {
      netWorth := Some(0.0);
      assets := [];
      incomes := [];
      debts := [];
      retirementAccounts := [];
      taxLiability := TaxLiability(Some(0.0), Some(0.0), Some(0.0), Some(0.0));
      userTaxInfo := TaxInfo(Some("SINGLE"), Some("CA"));
      error := None;
      loading := true;
      isModalOpen := false;
      modalTab := "income";
    }

    /** The setters of lines 79-93 and 116-130. */
    method SetFromResponse(d: ResponseData)
      modifies this
      ensures Current() == WithResponse(old(Current()), d)
    {
      assets := d.assets;
      incomes := d.incomes;
      debts := d.debts;
      retirementAccounts := if d.retirementAccounts.Some? then d.retirementAccounts.value else [];
      netWorth := d.realTimeNetWorth;
      taxLiability := TaxLiability(d.estimatedTaxLiability, d.estimatedFederalTax, d.estimatedStateTax, d.estimatedFicaTax);
      userTaxInfo := TaxInfo(d.filingStatus, d.state);
    }

    /** `fetchData`. */
    method FetchData(reply: Reply)
      modifies this
      ensures Current() == AfterFetch(old(Current()), reply)
    {
      match reply
      case Ok(d) =>
        SetFromResponse(d);
        loading := false;
      case Thrown(message, _) =>
        error := Some(message);
        loading := false;
    }

    /** `handleSave`; `pending` is the state rendered while the request is in flight. */
    method HandleSave(reply: Reply) returns (ghost pending: View)
      modifies this
      ensures pending == Started(old(Current()))
      ensures Current() == AfterSave(pending, reply)
    {
      loading := true;
      pending := Current();
      match reply
      case Ok(d) =>
        SetFromResponse(d);
        isModalOpen := false;
        loading := false;
        error := None;
      case Thrown(message, serverError) =>
        error := Some(ErrorMessage(message, serverError));
        loading := false;
    }

    /** `handleSaveTaxInfo`; `pending` is the state rendered while the request is in flight. */
    method HandleSaveTaxInfo(reply: Reply) returns (ghost pending: View)
      modifies this
      ensures pending == Started(old(Current()))
      ensures Current() == AfterSaveTaxInfo(pending, reply)
    {
      loading := true;
      pending := Current();
      match reply
      case Ok(d) =>
        netWorth := d.realTimeNetWorth;
        taxLiability := TaxLiability(d.estimatedTaxLiability, d.estimatedFederalTax, d.estimatedStateTax, d.estimatedFicaTax);
        userTaxInfo := TaxInfo(d.filingStatus, d.state);
        loading := false;
        error := None;
      case Thrown(message, serverError) =>
        error := Some(ErrorMessage(message, serverError));
        loading := false;
    }

    /** `openEditModal`. */
    method OpenEditModal(tab: string)
      modifies this
      ensures Current() == OpenedEditModal(old(Current()), tab)
    {
      modalTab := tab;
      isModalOpen := true;
    }

    /** The modal's `onClose` (line 283). */
    method CloseModal()
      modifies this
      ensures Current() == old(Current()).(isModalOpen := false)
    {
      isModalOpen := false;
    }
  }
}
