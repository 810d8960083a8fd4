/** Enums and record shapes of backend/models.py, and the one derived field, Debt.remaining_balance.
    The shapes read and written by the Firestore serialiser (RetirementAccount, AccountType, Income.year,
    Asset.retirement_account_id) are not declared in models.py; they are taken from backend/firestore_db.py. */
module Models {
  import opened Wrappers

  /** FilingStatus: Name() is the Python member name, Value() the member value. */
  datatype FilingStatus = Single | MarriedFilingJointly | MarriedFilingSeparately | HeadOfHousehold | QualifyingWidow {
    function Name(): string {
      match this
      case Single => "SINGLE"
      case MarriedFilingJointly => "MARRIED_FILING_JOINTLY"
      case MarriedFilingSeparately => "MARRIED_FILING_SEPARATELY"
      case HeadOfHousehold => "HEAD_OF_HOUSEHOLD"
      case QualifyingWidow => "QUALIFYING_WIDOW"
    }
    function Value(): (v: string)
      ensures v == "single" <==> this == Single
    {
      match this
      case Single => "single"
      case MarriedFilingJointly => "married_filing_jointly"
      case MarriedFilingSeparately => "married_filing_separately"
      case HeadOfHousehold => "head_of_household"
      case QualifyingWidow => "qualifying_widow"
    }
  }

  /** The states listed in the enum (the source leaves the rest as a comment). */
  datatype USState = AL | AK | AZ | AR | CA {
    function Name(): (n: string)
      ensures n == "CA" <==> this == CA
    {
      match this
      case AL => "AL"
      case AK => "AK"
      case AZ => "AZ"
      case AR => "AR"
      case CA => "CA"
    }
    function Value(): string {
      match this
      case AL => "Alabama"
      case AK => "Alaska"
      case AZ => "Arizona"
      case AR => "Arkansas"
      case CA => "California"
    }
  }

  datatype IncomeType = Hourly | Salary {
    function Name(): string {
      match this
      case Hourly => "HOURLY"
      case Salary => "SALARY"
    }
    function Value(): string {
      match this
      case Hourly => "hourly"
      case Salary => "salary"
    }
  }

  /** Exactly the four asset types of the enum. */
  datatype AssetType = Stock | Bond | Cash | Housing {
    function Name(): string {
      match this
      case Stock => "STOCK"
      case Bond => "BOND"
      case Cash => "CASH"
      case Housing => "HOUSING"
    }
    function Value(): string {
      match this
      case Stock => "stock"
      case Bond => "bond"
      case Cash => "cash"
      case Housing => "housing"
    }
  }

  /** Retirement account kinds, looked up by name when a stored document is decoded. */
  datatype AccountType = K401 | B403 | RothIra | TraditionalIra {
    function Name(): string {
      match this
      case K401 => "K401"
      case B403 => "B403"
      case RothIra => "ROTH_IRA"
      case TraditionalIra => "TRADITIONAL_IRA"
    }
  }

  /** `FilingStatus[name]`: lookup of a member by its name. */
  function FilingStatusByName(name: string): (r: Option<FilingStatus>)
    ensures r.Some? ==> r.value.Name() == name
    ensures r.None? ==> forall fs: FilingStatus :: fs.Name() != name
  {
    if name == "SINGLE" then Some(Single)
    else if name == "MARRIED_FILING_JOINTLY" then Some(MarriedFilingJointly)
    else if name == "MARRIED_FILING_SEPARATELY" then Some(MarriedFilingSeparately)
    else if name == "HEAD_OF_HOUSEHOLD" then Some(HeadOfHousehold)
    else if name == "QUALIFYING_WIDOW" then Some(QualifyingWidow)
    else None
  }

  function USStateByName(name: string): (r: Option<USState>)
    ensures r.Some? ==> r.value.Name() == name
    ensures r.None? ==> forall st: USState :: st.Name() != name
  {
    if name == "AL" then Some(AL)
    else if name == "AK" then Some(AK)
    else if name == "AZ" then Some(AZ)
    else if name == "AR" then Some(AR)
    else if name == "CA" then Some(CA)
    else None
  }

  function IncomeTypeByName(name: string): (r: Option<IncomeType>)
    ensures r.Some? ==> r.value.Name() == name
    ensures r.None? ==> forall it: IncomeType :: it.Name() != name
  {
    if name == "HOURLY" then Some(Hourly)
    else if name == "SALARY" then Some(Salary)
    else None
  }

  function AssetTypeByName(name: string): (r: Option<AssetType>)
    ensures r.Some? ==> r.value.Name() == name
    ensures r.None? ==> forall at: AssetType :: at.Name() != name
  {
    if name == "STOCK" then Some(Stock)
    else if name == "BOND" then Some(Bond)
    else if name == "CASH" then Some(Cash)
    else if name == "HOUSING" then Some(Housing)
    else None
  }

  function AccountTypeByName(name: string): (r: Option<AccountType>)
    ensures r.Some? ==> r.value.Name() == name
    ensures r.None? ==> forall at: AccountType :: at.Name() != name
  {
    if name == "K401" then Some(K401)
    else if name == "B403" then Some(B403)
    else if name == "ROTH_IRA" then Some(RothIra)
    else if name == "TRADITIONAL_IRA" then Some(TraditionalIra)
    else None
  }

  /** Member names are pairwise distinct, so a lookup by the name of a member finds that member. */
  lemma EnumNamesRoundTrip(fs: FilingStatus, st: USState, it: IncomeType, at: AssetType, ac: AccountType)
    ensures FilingStatusByName(fs.Name()) == Some(fs)
    ensures USStateByName(st.Name()) == Some(st)
    ensures IncomeTypeByName(it.Name()) == Some(it)
    ensures AssetTypeByName(at.Name()) == Some(at)
    ensures AccountTypeByName(ac.Name()) == Some(ac)
  {
  }

  /** FilingStatus values are pairwise distinct, and SINGLE carries the key of the tax tables. */
  lemma FilingStatusValuesDistinct(a: FilingStatus, b: FilingStatus)
    ensures a.Value() == b.Value() ==> a == b
    ensures a.Value() == "single" <==> a == Single
  {
  }

  datatype User = User(filingStatus: FilingStatus, state: USState)

  /** Income row; the optional columns are nullable, `year` is set by the serialiser. */
  datatype Income = Income(
    incomeType: IncomeType,
    amount: real,
    monthlyIncome: Option<real>,
    hourlyWage: Option<real>,
    hoursWorked: Option<real>,
    year: Option<int>)

  /** The attribute `retirement_account_id`, which an Asset object may or may not carry. */
  datatype AccountRef = Unset | Set(id: Option<string>)

  datatype Asset = Asset(
    ticker: string,
    shares: real,
    costBasis: real,
    assetType: AssetType,
    retirementAccountId: AccountRef)

  datatype Debt = Debt(
    name: string,
    initialAmount: real,
    amountPaid: real,
    monthlyPayment: Option<real>,
    interestRate: Option<real>)

  datatype RetirementAccount = RetirementAccount(
    id: Option<string>,
    name: string,
    accountType: AccountType,
    contributions2025: Option<real>,
    contributions2026: Option<real>)

  /** An Income built from its two required columns. */
  function NewIncome(incomeType: IncomeType, amount: real): (i: Income)
    ensures i.incomeType == incomeType && i.amount == amount
    ensures i.monthlyIncome.None? && i.hourlyWage.None? && i.hoursWorked.None? && i.year.None?
  {
    Income(incomeType, amount, None, None, None, None)
  }

  /** An Asset built from ticker, shares and cost basis takes the column default STOCK. */
  function NewAsset(ticker: string, shares: real, costBasis: real): (a: Asset)
    ensures a.assetType == Stock
    ensures a.ticker == ticker && a.shares == shares && a.costBasis == costBasis
    ensures a.retirementAccountId == Unset
  {
    Asset(ticker, shares, costBasis, Stock, Unset)
  }

  /** A Debt built from name and initial amount takes the column default amount_paid = 0. */
  function NewDebt(name: string, initialAmount: real): (d: Debt)
    ensures d.amountPaid == 0.0 && d.initialAmount == initialAmount && d.name == name
  {
    Debt(name, initialAmount, 0.0, None, None)
  }

  /** `Debt.remaining_balance`: what is left to pay, never negative. */
  function RemainingBalance(d: Debt): (r: real)
    ensures r >= 0.0
    ensures r >= d.initialAmount - d.amountPaid
    ensures d.amountPaid >= d.initialAmount ==> r == 0.0
    ensures d.amountPaid <= d.initialAmount ==> r == d.initialAmount - d.amountPaid
    ensures d.amountPaid >= 0.0 && d.initialAmount >= 0.0 ==> r <= d.initialAmount
  {
    if d.initialAmount - d.amountPaid > 0.0 then d.initialAmount - d.amountPaid else 0.0
  }

  /** A fresh debt with the default amount paid owes its whole (non-negative) initial amount;
      an overpaid debt owes nothing. */
  lemma RemainingBalanceExamples(initialAmount: real)
    requires initialAmount >= 0.0
    ensures RemainingBalance(NewDebt("loan", initialAmount)) == initialAmount
    ensures RemainingBalance(Debt("loan", 10000.0, 12000.0, None, None)) == 0.0
  {
  }
}
