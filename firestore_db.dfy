/** The document serialiser of backend/firestore_db.py. Firestore itself is a map from user id to
    document (or no client at all); a document is a map from key to a JSON-like value. Decoding
    follows `get_user_data`: defaults for absent keys, a KeyError for a missing required key or an
    unknown enum name. Encoding follows `save_user_data`. */
module FirestoreDb {
  import opened Wrappers
  import opened Models

  /** The values a stored document holds. */
  datatype Value =
    | Null
    | Str(s: string)
    | Int(i: int)
    | Num(x: real)
    | List(items: seq<Value>)
    | Object(fields: map<string, Value>)

  type Document = map<string, Value>

  /** Why decoding a document raises: a missing required key, a value that names no enum member,
      or a value of the wrong kind under a key. */
  datatype DecodeError =
    | MissingKey(key: string)
    | UnknownName(enumName: string, value: Value)
    | WrongType(key: string)

  /** The five parts `get_user_data` returns. */
  datatype UserData = UserData(
    user: User,
    incomes: seq<Income>,
    assets: seq<Asset>,
    debts: seq<Debt>,
    retirementAccounts: seq<RetirementAccount>)

  /** `get_db()`: no client when initialisation failed, otherwise the `users` collection. */
  datatype Db = NoClient | Client(users: map<string, Document>)

  /** What a missing client or a missing document yields: SINGLE / CA and four empty lists. */
  function EmptyUserData(): (u: UserData)
    ensures u.user == User(Single, CA)
    ensures u.incomes == [] && u.assets == [] && u.debts == [] && u.retirementAccounts == []
  {
    UserData(User(Single, CA), [], [], [], [])
  }

  // ----- reading one field -----

  /** `o[key]`. */
  function Required(o: Document, key: string): Result<Value, DecodeError> {
    if key in o then Success(o[key]) else Failure(MissingKey(key))
  }

  /** `o.get(key, default)`. */
  function GetOr(o: Document, key: string, default: Value): Value {
    if key in o then o[key] else default
  }

  function AsNumber(v: Value, key: string): Result<real, DecodeError> {
    match v
    case Num(x) => Success(x)
    case Int(i) => Success(i as real)
    case _ => Failure(WrongType(key))
  }

  function AsString(v: Value, key: string): Result<string, DecodeError> {
    match v
    case Str(s) => Success(s)
    case _ => Failure(WrongType(key))
  }

  /** A nullable number: null is None. */
  function AsOptNumber(v: Value, key: string): Result<Option<real>, DecodeError> {
    match v
    case Null => Success(None)
    case Num(x) => Success(Some(x))
    case Int(i) => Success(Some(i as real))
    case _ => Failure(WrongType(key))
  }

  function AsOptString(v: Value, key: string): Result<Option<string>, DecodeError> {
    match v
    case Null => Success(None)
    case Str(s) => Success(Some(s))
    case _ => Failure(WrongType(key))
  }

  function AsOptInt(v: Value, key: string): Result<Option<int>, DecodeError> {
    match v
    case Null => Success(None)
    case Int(i) => Success(Some(i))
    case _ => Failure(WrongType(key))
  }

  /** `Enum[v]`: the member whose name is v, a KeyError for anything else. */
  function Member<T>(v: Value, enumName: string, byName: string -> Option<T>): (r: Result<T, DecodeError>)
    ensures r.Success? <==> v.Str? && byName(v.s).Some?
    ensures r.Success? ==> r.value == byName(v.s).value
    ensures r.Failure? ==> r.error == UnknownName(enumName, v)
  {
    if v.Str? && byName(v.s).Some? then Success(byName(v.s).value)
    else Failure(UnknownName(enumName, v))
  }

  // ----- decoding the records (lines 52-98) -----

  function DecodeIncome(v: Value): Result<Income, DecodeError> {
    if !v.Object? then Failure(WrongType("incomes")) else
    var o := v.fields;
    var typeValue :- Required(o, "income_type");
    var incomeType :- Member(typeValue, "IncomeType", IncomeTypeByName);
    var amountValue :- Required(o, "amount");
    var amount :- AsNumber(amountValue, "amount");
    var monthlyIncome :- AsOptNumber(GetOr(o, "monthly_income", Null), "monthly_income");
    var hourlyWage :- AsOptNumber(GetOr(o, "hourly_wage", Null), "hourly_wage");
    var hoursWorked :- AsOptNumber(GetOr(o, "hours_worked", Null), "hours_worked");
    var year :- AsOptInt(GetOr(o, "year", Int(2026)), "year");
    Success(Income(incomeType, amount, monthlyIncome, hourlyWage, hoursWorked, year))
  }

  /** The attribute `retirement_account_id` is set only when the stored asset has the key. */
  function DecodeAsset(v: Value): Result<Asset, DecodeError> {
    if !v.Object? then Failure(WrongType("assets")) else
    var o := v.fields;
    var tickerValue :- Required(o, "ticker");
    var ticker :- AsString(tickerValue, "ticker");
    var sharesValue :- Required(o, "shares");
    var shares :- AsNumber(sharesValue, "shares");
    var costBasisValue :- Required(o, "cost_basis");
    var costBasis :- AsNumber(costBasisValue, "cost_basis");
    var typeValue :- Required(o, "asset_type");
    var assetType :- Member(typeValue, "AssetType", AssetTypeByName);
    if "retirement_account_id" in o then
      var id :- AsOptString(o["retirement_account_id"], "retirement_account_id");
      Success(Asset(ticker, shares, costBasis, assetType, Set(id)))
    else
      Success(Asset(ticker, shares, costBasis, assetType, Unset))
  }

  function DecodeDebt(v: Value): Result<Debt, DecodeError> {
    if !v.Object? then Failure(WrongType("debts")) else
    var o := v.fields;
    var nameValue :- Required(o, "name");
    var name :- AsString(nameValue, "name");
    var initialValue :- Required(o, "initial_amount");
    var initialAmount :- AsNumber(initialValue, "initial_amount");
    var paidValue :- Required(o, "amount_paid");
    var amountPaid :- AsNumber(paidValue, "amount_paid");
    var monthlyPayment :- AsOptNumber(GetOr(o, "monthly_payment", Null), "monthly_payment");
    var interestRate :- AsOptNumber(GetOr(o, "interest_rate", Null), "interest_rate");
    Success(Debt(name, initialAmount, amountPaid, monthlyPayment, interestRate))
  }

  function DecodeRetirementAccount(v: Value): Result<RetirementAccount, DecodeError> {
    if !v.Object? then Failure(WrongType("retirement_accounts")) else
    var o := v.fields;
    var id :- AsOptString(GetOr(o, "id", Null), "id");
    var nameValue :- Required(o, "name");
    var name :- AsString(nameValue, "name");
    var typeValue :- Required(o, "account_type");
    var accountType :- Member(typeValue, "AccountType", AccountTypeByName);
    var contributions2025 :- AsOptNumber(GetOr(o, "contributions_2025", Num(0.0)), "contributions_2025");
    var contributions2026 :- AsOptNumber(GetOr(o, "contributions_2026", Num(0.0)), "contributions_2026");
    Success(RetirementAccount(id, name, accountType, contributions2025, contributions2026))
  }

  /** What one for/append loop builds: every item decoded, in order, or the first item's error. */
  function DecodeAll<T>(items: seq<Value>, decode: Value -> Result<T, DecodeError>): (r: Result<seq<T>, DecodeError>)
    ensures r.Success? ==> |r.value| == |items|
    ensures r.Success? ==> forall k :: 0 <= k < |items| ==> decode(items[k]) == Success(r.value[k])
    decreases |items|
  {
    if |items| == 0 then Success([])
    else
      var first :- decode(items[0]);
      var rest :- DecodeAll(items[1..], decode);
      assert forall k :: 1 <= k < |items| ==> items[k] == items[1..][k - 1];
      Success([first] + rest)
  }

  /** `data.get(key, [])`, which must be a list to be iterated. */
  function ListField(data: Document, key: string): Result<seq<Value>, DecodeError> {
    match GetOr(data, key, List([]))
    case List(items) => Success(items)
    case _ => Failure(WrongType(key))
  }

  /** Lines 52-100: the user first, then the four lists in order. */
  function DecodeDocument(data: Document): Result<UserData, DecodeError> {
    var filingStatus :- Member(GetOr(data, "filing_status", Str("SINGLE")), "FilingStatus", FilingStatusByName);
    var state :- Member(GetOr(data, "state", Str("CA")), "USState", USStateByName);
    var incomeItems :- ListField(data, "incomes");
    var incomes :- DecodeAll(incomeItems, DecodeIncome);
    var assetItems :- ListField(data, "assets");
    var assets :- DecodeAll(assetItems, DecodeAsset);
    var debtItems :- ListField(data, "debts");
    var debts :- DecodeAll(debtItems, DecodeDebt);
    var accountItems :- ListField(data, "retirement_accounts");
    var accounts :- DecodeAll(accountItems, DecodeRetirementAccount);
    Success(UserData(User(filingStatus, state), incomes, assets, debts, accounts))
  }

  /** `get_user_data(user_id)`: defaults without a client or without the document. */
  function UserDataOf(db: Db, userId: string): (r: Result<UserData, DecodeError>)
    ensures db.NoClient? ==> r == Success(EmptyUserData())
    ensures db.Client? && userId !in db.users ==> r == Success(EmptyUserData())
    ensures db.Client? && userId in db.users ==> r == DecodeDocument(db.users[userId])
  {
    match db
    case NoClient => Success(EmptyUserData())
    case Client(users) =>
      if userId !in users then Success(EmptyUserData()) else DecodeDocument(users[userId])
  }

  // ----- encoding (lines 110-142) -----

  function EncodeOptNumber(x: Option<real>): Value {
    match x
    case None => Null
    case Some(v) => Num(v)
  }

  function EncodeOptString(x: Option<string>): Value {
    match x
    case None => Null
    case Some(v) => Str(v)
  }

  function EncodeOptInt(x: Option<int>): Value {
    match x
    case None => Null
    case Some(v) => Int(v)
  }

  function EncodeIncome(i: Income): Value {
    Object(map[
      "income_type" := Str(i.incomeType.Name()),
      "amount" := Num(i.amount),
      "monthly_income" := EncodeOptNumber(i.monthlyIncome),
      "hourly_wage" := EncodeOptNumber(i.hourlyWage),
      "hours_worked" := EncodeOptNumber(i.hoursWorked),
      "year" := EncodeOptInt(i.year)])
  }

  /** `getattr(a, 'retirement_account_id', None)`: an asset without the attribute stores null. */
  function AccountIdOf(a: Asset): Option<string> {
    match a.retirementAccountId
    case Unset => None
    case Set(id) => id
  }

  /** The encoded asset always carries the key `retirement_account_id`. */
  function EncodeAsset(a: Asset): (v: Value)
    ensures v.Object? && "retirement_account_id" in v.fields
  {
    Object(map[
      "ticker" := Str(a.ticker),
      "shares" := Num(a.shares),
      "cost_basis" := Num(a.costBasis),
      "asset_type" := Str(a.assetType.Name()),
      "retirement_account_id" := EncodeOptString(AccountIdOf(a))])
  }

  function EncodeDebt(d: Debt): Value {
    Object(map[
      "name" := Str(d.name),
      "initial_amount" := Num(d.initialAmount),
      "amount_paid" := Num(d.amountPaid),
      "monthly_payment" := EncodeOptNumber(d.monthlyPayment),
      "interest_rate" := EncodeOptNumber(d.interestRate)])
  }

  function EncodeRetirementAccount(r: RetirementAccount): Value {
    Object(map[
      "id" := EncodeOptString(r.id),
      "name" := Str(r.name),
      "account_type" := Str(r.accountType.Name()),
      "contributions_2025" := EncodeOptNumber(r.contributions2025),
      "contributions_2026" := EncodeOptNumber(r.contributions2026)])
  }

  /** A list comprehension `[encode(x) for x in xs]`. */
  function EncodeAll<T>(xs: seq<T>, encode: T -> Value): (vs: seq<Value>)
    ensures |vs| == |xs|
    ensures forall k :: 0 <= k < |xs| ==> vs[k] == encode(xs[k])
  {
    seq(|xs|, k requires 0 <= k < |xs| => encode(xs[k]))
  }

  /** The dict `save_user_data` builds: enums by name, the four lists in order. */
  function EncodeUserData(u: UserData): (data: Document)
    ensures data.Keys == {"filing_status", "state", "incomes", "assets", "debts", "retirement_accounts"}
  {
    map[
      "filing_status" := Str(u.user.filingStatus.Name()),
      "state" := Str(u.user.state.Name()),
      "incomes" := List(EncodeAll(u.incomes, EncodeIncome)),
      "assets" := List(EncodeAll(u.assets, EncodeAsset)),
      "debts" := List(EncodeAll(u.debts, EncodeDebt)),
      "retirement_accounts" := List(EncodeAll(u.retirementAccounts, EncodeRetirementAccount))]
  }

  /** `save_user_data`: without a client nothing is written; otherwise the user's document is
      replaced by the built dict and no other document changes. */
  function SaveUserData(db: Db, u: UserData, userId: string): (r: Db)
    ensures db.NoClient? <==> r.NoClient?
    ensures r.Client? ==> userId in r.users && r.users[userId] == EncodeUserData(u)
    ensures r.Client? ==> forall other :: other != userId ==>
      (other in r.users <==> other in db.users) && (other in r.users ==> r.users[other] == db.users[other])
  {
    match db
    case NoClient => NoClient
    case Client(users) => Client(users[userId := EncodeUserData(u)])
  }

  // ----- the round trip -----

  /** What a save and a load do to an asset: a missing attribute comes back as a null one. */
  function NormalizeAsset(a: Asset): (b: Asset)
    ensures b.retirementAccountId == Set(AccountIdOf(a))
    ensures a.retirementAccountId.Set? ==> b == a
  {
    a.(retirementAccountId := Set(AccountIdOf(a)))
  }

  function NormalizeAssets(assets: seq<Asset>): (bs: seq<Asset>)
    ensures |bs| == |assets|
    ensures forall k :: 0 <= k < |assets| ==> bs[k] == NormalizeAsset(assets[k])
  {
    seq(|assets|, k requires 0 <= k < |assets| => NormalizeAsset(assets[k]))
  }

  function Normalize(u: UserData): UserData {
    u.(assets := NormalizeAssets(u.assets))
  }

  lemma IncomeRoundTrip(i: Income)
    ensures DecodeIncome(EncodeIncome(i)) == Success(i)
  {
    EnumNamesRoundTrip(Single, CA, i.incomeType, Stock, K401);
  }

  lemma AssetRoundTrip(a: Asset)
    ensures DecodeAsset(EncodeAsset(a)) == Success(NormalizeAsset(a))
  {
    EnumNamesRoundTrip(Single, CA, Salary, a.assetType, K401);
  }

  lemma DebtRoundTrip(d: Debt)
    ensures DecodeDebt(EncodeDebt(d)) == Success(d)
  {
  }

  lemma RetirementAccountRoundTrip(r: RetirementAccount)
    ensures DecodeRetirementAccount(EncodeRetirementAccount(r)) == Success(r)
  {
    EnumNamesRoundTrip(Single, CA, Salary, Stock, r.accountType);
  }

  /** A record-level round trip lifts to lists: the same length, the same order. */
  lemma {:induction false} DecodeAllRoundTrip<T, U>(xs: seq<T>, encode: T -> Value,
                                                   decode: Value -> Result<U, DecodeError>, norm: T -> U)
    requires forall x :: decode(encode(x)) == Success(norm(x))
    ensures DecodeAll(EncodeAll(xs, encode), decode).Success?
    ensures |DecodeAll(EncodeAll(xs, encode), decode).value| == |xs|
    ensures forall k :: 0 <= k < |xs| ==> DecodeAll(EncodeAll(xs, encode), decode).value[k] == norm(xs[k])
    decreases |xs|
  {
    var vs := EncodeAll(xs, encode);
    if |xs| > 0 {
      assert decode(vs[0]) == Success(norm(xs[0]));
      assert vs[1..] == EncodeAll(xs[1..], encode);
      DecodeAllRoundTrip(xs[1..], encode, decode, norm);
    }
    var r := DecodeAll(vs, decode);
    forall k | 0 <= k < |xs|
      ensures r.value[k] == norm(xs[k])
    {
      assert decode(vs[k]) == Success(r.value[k]);
      assert decode(encode(xs[k])) == Success(norm(xs[k]));
    }
  }

  lemma IncomesRoundTrip(incomes: seq<Income>)
    ensures DecodeAll(EncodeAll(incomes, EncodeIncome), DecodeIncome) == Success(incomes)
  {
    forall i: Income ensures DecodeIncome(EncodeIncome(i)) == Success((x => x)(i)) {
      IncomeRoundTrip(i);
    }
    DecodeAllRoundTrip(incomes, EncodeIncome, DecodeIncome, x => x);
    assert DecodeAll(EncodeAll(incomes, EncodeIncome), DecodeIncome).value == incomes;
  }

  lemma AssetsRoundTrip(assets: seq<Asset>)
    ensures DecodeAll(EncodeAll(assets, EncodeAsset), DecodeAsset) == Success(NormalizeAssets(assets))
  {
    forall a: Asset ensures DecodeAsset(EncodeAsset(a)) == Success(NormalizeAsset(a)) {
      AssetRoundTrip(a);
    }
    DecodeAllRoundTrip(assets, EncodeAsset, DecodeAsset, NormalizeAsset);
    assert DecodeAll(EncodeAll(assets, EncodeAsset), DecodeAsset).value == NormalizeAssets(assets);
  }

  lemma DebtsRoundTrip(debts: seq<Debt>)
    ensures DecodeAll(EncodeAll(debts, EncodeDebt), DecodeDebt) == Success(debts)
  {
    forall d: Debt ensures DecodeDebt(EncodeDebt(d)) == Success((x => x)(d)) {
      DebtRoundTrip(d);
    }
    DecodeAllRoundTrip(debts, EncodeDebt, DecodeDebt, x => x);
    assert DecodeAll(EncodeAll(debts, EncodeDebt), DecodeDebt).value == debts;
  }

  lemma RetirementAccountsRoundTrip(accounts: seq<RetirementAccount>)
    ensures DecodeAll(EncodeAll(accounts, EncodeRetirementAccount), DecodeRetirementAccount) == Success(accounts)
  {
    forall r: RetirementAccount
      ensures DecodeRetirementAccount(EncodeRetirementAccount(r)) == Success((x => x)(r))
    {
      RetirementAccountRoundTrip(r);
    }
    DecodeAllRoundTrip(accounts, EncodeRetirementAccount, DecodeRetirementAccount, x => x);
    assert DecodeAll(EncodeAll(accounts, EncodeRetirementAccount), DecodeRetirementAccount).value == accounts;
  }

  /** Saving and loading gives back every field and every list in order; only an asset without the
      account attribute changes, to one with a null attribute. */
  lemma UserDataRoundTrip(u: UserData)
    ensures DecodeDocument(EncodeUserData(u)) == Success(Normalize(u))
  {
    var data := EncodeUserData(u);
    EnumNamesRoundTrip(u.user.filingStatus, u.user.state, Salary, Stock, K401);
    assert Member(GetOr(data, "filing_status", Str("SINGLE")), "FilingStatus", FilingStatusByName)
      == Success(u.user.filingStatus);
    assert Member(GetOr(data, "state", Str("CA")), "USState", USStateByName) == Success(u.user.state);
    assert ListField(data, "incomes") == Success(EncodeAll(u.incomes, EncodeIncome));
    assert ListField(data, "assets") == Success(EncodeAll(u.assets, EncodeAsset));
    assert ListField(data, "debts") == Success(EncodeAll(u.debts, EncodeDebt));
    assert ListField(data, "retirement_accounts") == Success(EncodeAll(u.retirementAccounts, EncodeRetirementAccount));
    IncomesRoundTrip(u.incomes);
    AssetsRoundTrip(u.assets);
    DebtsRoundTrip(u.debts);
    RetirementAccountsRoundTrip(u.retirementAccounts);
  }

  /** Through the store: after a save with a client, a load of the same user returns what was saved. */
  lemma SaveThenLoad(db: Db, u: UserData, userId: string)
    ensures db.Client? ==> UserDataOf(SaveUserData(db, u, userId), userId) == Success(Normalize(u))
    ensures db.NoClient? ==> UserDataOf(SaveUserData(db, u, userId), userId) == Success(EmptyUserData())
  {
    UserDataRoundTrip(u);
  }

  /** A loaded asset always carries the attribute, so saving what was loaded stores the same document. */
  lemma NormalizeIsStable(u: UserData)
    ensures Normalize(Normalize(u)) == Normalize(u)
    ensures EncodeUserData(Normalize(u)) == EncodeUserData(u)
  {
    var n := Normalize(u);
    assert EncodeAll(n.assets, EncodeAsset) == EncodeAll(u.assets, EncodeAsset);
  }

  /** A document without any key decodes to the defaults SINGLE / CA and four empty lists. */
  lemma EmptyDocumentDefaults()
    ensures DecodeDocument(map[]) == Success(EmptyUserData())
  {
  }

  /** An income with only its required keys gets year 2026 and null optional columns; a retirement
      account without contributions gets 0.0 for both years. */
  lemma RecordDefaults(amount: real, name: string)
    ensures DecodeIncome(Object(map["income_type" := Str("SALARY"), "amount" := Num(amount)]))
      == Success(Income(Salary, amount, None, None, None, Some(2026)))
    ensures DecodeRetirementAccount(Object(map["name" := Str(name), "account_type" := Str("ROTH_IRA")]))
      == Success(RetirementAccount(None, name, RothIra, Some(0.0), Some(0.0)))
  {
  }

  /** A stored filing status that names no member makes the load fail with that value. */
  lemma UnknownFilingStatusFails(data: Document, name: string)
    requires FilingStatusByName(name).None?
    ensures DecodeDocument(data["filing_status" := Str(name)]) == Failure(UnknownName("FilingStatus", Str(name)))
  {
  }

  /** One item that does not decode makes the whole list fail. */
  lemma {:induction false} DecodeAllFailsOnBadItem<T>(items: seq<Value>, decode: Value -> Result<T, DecodeError>, k: int)
    requires 0 <= k < |items| && decode(items[k]).Failure?
    ensures DecodeAll(items, decode).Failure?
    decreases |items|
  {
    if k > 0 && decode(items[0]).Success? {
      assert items[1..][k - 1] == items[k];
      DecodeAllFailsOnBadItem(items[1..], decode, k - 1);
    }
  }

  /** `Result.map` to prepend an already decoded prefix. */
  function Prepend<T>(prefix: seq<T>, r: Result<seq<T>, DecodeError>): Result<seq<T>, DecodeError> {
    match r
    case Success(rest) => Success(prefix + rest)
    case Failure(e) => Failure(e)
  }

  lemma PrependNothing<T>(r: Result<seq<T>, DecodeError>)
    ensures Prepend([], r) == r
  {
    if r.Success? {
      assert [] + r.value == r.value;
    }
  }

  lemma PrependTwice<T>(xs: seq<T>, ys: seq<T>, r: Result<seq<T>, DecodeError>)
    ensures Prepend(xs, Prepend(ys, r)) == Prepend(xs + ys, r)
  {
    if r.Success? {
      assert xs + (ys + r.value) == xs + ys + r.value;
    }
  }

  /** One for/append loop: decode each item in order, stopping at the first error. */
  method DecodeEach<T>(items: seq<Value>, decode: Value -> Result<T, DecodeError>) returns (r: Result<seq<T>, DecodeError>)
    ensures r == DecodeAll(items, decode)
  {
    var decoded: seq<T> := [];
    var i := 0;
    assert items[i..] == items;
    PrependNothing(DecodeAll(items, decode));
    while i < |items|
      invariant 0 <= i <= |items|
      invariant DecodeAll(items, decode) == Prepend(decoded, DecodeAll(items[i..], decode))
    {
      var item := decode(items[i]);
      if item.Failure? {
        return Failure(item.error);
      }
      assert items[i..][1..] == items[i + 1..];
      PrependTwice(decoded, [item.value], DecodeAll(items[i + 1..], decode));
      decoded := decoded + [item.value];
      i := i + 1;
    }
    assert items[i..] == [];
    assert decoded + [] == decoded;
    return Success(decoded);
  }

  /** `get_user_data(user_id)`. */
  method GetUserData(db: Db, userId: string) returns (r: Result<UserData, DecodeError>)
    ensures r == UserDataOf(db, userId)
  {
    if db.NoClient? || userId !in db.users {
      return Success(EmptyUserData());
    }
    var data := db.users[userId];
    var filingStatus := Member(GetOr(data, "filing_status", Str("SINGLE")), "FilingStatus", FilingStatusByName);
    if filingStatus.Failure? {
      return Failure(filingStatus.error);
    }
    var state := Member(GetOr(data, "state", Str("CA")), "USState", USStateByName);
    if state.Failure? {
      return Failure(state.error);
    }
    var incomeItems := ListField(data, "incomes");
    if incomeItems.Failure? {
      return Failure(incomeItems.error);
    }
    var incomes := DecodeEach(incomeItems.value, DecodeIncome);
    if incomes.Failure? {
      return Failure(incomes.error);
    }
    var assetItems := ListField(data, "assets");
    if assetItems.Failure? {
      return Failure(assetItems.error);
    }
    var assets := DecodeEach(assetItems.value, DecodeAsset);
    if assets.Failure? {
      return Failure(assets.error);
    }
    var debtItems := ListField(data, "debts");
    if debtItems.Failure? {
      return Failure(debtItems.error);
    }
    var debts := DecodeEach(debtItems.value, DecodeDebt);
    if debts.Failure? {
      return Failure(debts.error);
    }
    var accountItems := ListField(data, "retirement_accounts");
    if accountItems.Failure? {
      return Failure(accountItems.error);
    }
    var accounts := DecodeEach(accountItems.value, DecodeRetirementAccount);
    if accounts.Failure? {
      return Failure(accounts.error);
    }
    r := Success(UserData(User(filingStatus.value, state.value), incomes.value, assets.value, debts.value,
                          accounts.value));
  }
}
