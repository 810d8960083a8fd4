# Personal Finance App: a verified model of the valuation, tax and edit/save core

This project models the money calculations and state updates of the Personal Finance App,
covering both its Python backend and its React frontend:

- **Progressive tax** (`TaxLogic`). The 2026 federal and California tables for filing status
  `single` and the marginal-bracket loop both calculators run. The loop is proved equal to a
  closed-form sum over brackets. The model also proves that the tax is non-negative,
  non-decreasing and bounded by the lowest and top rates, that the loop always stops at a
  `break`, and that California's 1% mental-health surcharge applies only above 1,000,000 of
  taxable income.
- **Records** (`Models`). The enums with their names and values, the record shapes, and
  `Debt.remaining_balance`.
- **Net worth** (`Calculations`). `calculate_net_worth`: market value over the priced assets,
  total income, federal plus state tax on that income, and net worth = market value − tax.
  Debts do not enter net worth. The price service is a parameter.
- **In-memory API** (`Api`). The module-level store as a class, and `update_portfolio`, which
  writes the first income and the shares of every QQQ/NVDA asset. `get_net_worth` and the two
  dict projections are modelled too.
- **Firestore serialiser** (`FirestoreDb`). `get_user_data` decoding with its defaults, and
  `save_user_data` encoding. A save followed by a load is proved to give every record back.
- **Bearer-token decorator** (`Auth`). OPTIONS pass-through, guest fallback, token extraction
  by `split('Bearer ')[1]`, and rejection with 401.
- **Frontend.**
  - `ClientData`: the JSON records the components read.
  - `AssetTable`: the per-row valuation and display rules. An asset without a price is valued
    three different ways: at its cost basis in the investments total (App.js:210), at 0 in the
    table (AssetTable.js:20-24) and at shares × cost basis in the chart (Dashboard.js:10);
    `App.UnpricedHoldingValuedThreeWays` states all three.
  - `Dashboard`: the pie-chart values and colour cycling.
  - `App`: the state transitions of `MainContent` and its totals.
  - `EditPortfolio`: the three-field edit form. Saving the form unedited is proved to leave the
    backend store as it was.

Python and JavaScript floats are modelled as `real`. JavaScript's `x || y` on a number takes
`y` when `x` is missing or zero; this is modelled with `Option<real>` and `ClientData.Truthy`.
Each outcome of a request (a response, or the error it threw) is an input to the model.

## Model

| member | source | states |
|---|---|---|
| Models.FilingStatus.Value | backend/models.py:8-13 | the value is "single" exactly for SINGLE |
| Models.USState.Name | backend/models.py:15-20 | the name is "CA" exactly for CA |
| Models.FilingStatusByName | backend/models.py:8-13 | a lookup by name finds the member with that name, or fails when no member has it |
| Models.USStateByName | backend/models.py:15-20 | a lookup by name finds the member with that name, or fails when no member has it |
| Models.IncomeTypeByName | backend/models.py:29-31 | a lookup by name finds the member with that name, or fails when no member has it |
| Models.AssetTypeByName | backend/models.py:33-37 | a lookup by name finds the member with that name, or fails when no member has it |
| Models.AccountTypeByName | backend/firestore_db.py:95 | a lookup by name finds the member with that name, or fails when no member has it |
| Models.EnumNamesRoundTrip | backend/models.py:8-37 | looking up any member's name gives back that member, for all five enums |
| Models.FilingStatusValuesDistinct | backend/models.py:8-13 | filing-status values are pairwise distinct; "single" belongs to SINGLE alone |
| Models.NewIncome | backend/models.py:39-47 | an income built from type and amount has null optional columns |
| Models.NewAsset | backend/models.py:49-56 | a new asset gets the column default STOCK and no account attribute |
| Models.NewDebt | backend/models.py:58-66 | a new debt gets the default amount_paid 0 |
| Models.RemainingBalance | backend/models.py:68-70 | never negative; 0 when paid ≥ initial; exactly initial − paid otherwise; at most initial when both are non-negative |
| Models.RemainingBalanceExamples | backend/models.py:64-70 | a fresh debt owes its initial amount; 10000 initial with 12000 paid owes 0 |
| TaxLogic.TaxableIncome | backend/tax_logic.py:49 | max(0, income − deduction): non-negative, and 0 whenever income ≤ deduction |
| TaxLogic.LoopBreaksWithinTable | backend/tax_logic.py:54-66 | on a table whose last bracket is unbounded, the loop leaves by a break before running off the end |
| TaxLogic.ClosedFormZeroBelow | backend/tax_logic.py:54-66 | brackets entirely above the income add nothing |
| TaxLogic.BracketTaxIsClosedForm | backend/tax_logic.py:54-66 | the loop's tax equals Σ rate_k × (min(t, up_to_k) − up_to_{k−1}) over the brackets the income reaches |
| TaxLogic.BracketShareMonotone | backend/tax_logic.py:61-66 | one bracket's share is non-negative and non-decreasing in the income |
| TaxLogic.ClosedFormMonotone | backend/tax_logic.py:54-66 | the closed form is non-decreasing in the income |
| TaxLogic.ClosedFormBounds | backend/tax_logic.py:54-66 | the closed form lies between the lowest and the highest rate times the income the brackets cover |
| TaxLogic.TableTaxProperties | backend/tax_logic.py:49-66 | for any well-formed table: the loop's tax is the closed form and lies between lowest-rate × taxable and top-rate × taxable |
| TaxLogic.TableTaxMonotone | backend/tax_logic.py:49-66 | for any well-formed table the tax does not decrease as the income grows |
| TaxLogic.FederalSingleWellFormed | backend/tax_logic.py:2-14 | the federal single table has non-negative rates between 10% and 37%, strictly increasing limits and an unbounded top bracket |
| TaxLogic.CaSingleWellFormed | backend/tax_logic.py:18-35 | the CA single table has non-negative rates between 1% and 12.3%, strictly increasing limits and an unbounded top bracket |
| TaxLogic.FederalTax | backend/tax_logic.py:41-48 | fails, with the source's message, exactly for a filing status other than "single" |
| TaxLogic.StateTax | backend/tax_logic.py:70-80 | fails for a state other than CA, and then for a filing status other than "single", each with the source's message |
| TaxLogic.FederalTaxProperties | backend/tax_logic.py:41-68 | federal single tax is the closed form, between 10% and 37% of taxable income, never negative, and 0 up to the 16100 deduction |
| TaxLogic.FederalTaxMonotone | backend/tax_logic.py:41-68 | federal single tax is non-decreasing in income |
| TaxLogic.TablesAlwaysBreak | backend/tax_logic.py:54-66 | both shipped tables always stop the loop at a break |
| TaxLogic.FederalTaxExample | backend/tax_logic.py:41-68 | 28500 of income gives federal tax 1240 |
| TaxLogic.SurchargeProperties | backend/tax_logic.py:100-102 | the surcharge is non-negative, at most rate × taxable, and non-decreasing |
| TaxLogic.StateTableTaxBounds | backend/tax_logic.py:80-104 | a state table's tax lies between lowest-rate × taxable and (top rate + surcharge rate) × taxable |
| TaxLogic.StateTableTaxMonotone | backend/tax_logic.py:80-104 | a state table's tax is non-decreasing in income |
| TaxLogic.StateTableSurcharge | backend/tax_logic.py:100-102 | the surcharge adds rate × (taxable − threshold) above the threshold and nothing at or below it |
| TaxLogic.CaTaxSurcharge | backend/tax_logic.py:100-104 | CA tax adds 1% of taxable income above 1000000, and only above it |
| TaxLogic.CaTaxProperties | backend/tax_logic.py:70-104 | CA single tax is between 1% and 13.3% of taxable income, never negative, and 0 up to the 5706 deduction |
| TaxLogic.CaTaxMonotone | backend/tax_logic.py:70-104 | CA single tax is non-decreasing in income |
| TaxLogic.BracketLoop | backend/tax_logic.py:51-68 | the loop with its accumulators and breaks computes the bracket tax |
| TaxLogic.CalculateFederalTax | backend/tax_logic.py:41-68 | computes FederalTax, error case included |
| TaxLogic.ApplyFederalTable | backend/tax_logic.py:48-68 | the tax of the chosen federal table |
| TaxLogic.CalculateStateTax | backend/tax_logic.py:70-104 | computes StateTax, both error cases included |
| TaxLogic.ApplyStateTable | backend/tax_logic.py:80-104 | the bracket loop plus the surcharge of the chosen state table |
| Calculations.NetWorth | backend/calculations.py:5-40 | succeeds exactly for SINGLE in CA; any other filing status gives the federal error, and SINGLE in another state gives the state error, each with the source's message; liability = federal + state on the same total income; net worth = market value − liability |
| Calculations.TotalMarketValueConcat | backend/calculations.py:10-15 | the market value of a concatenation is the sum of the parts' values |
| Calculations.AppendAsset | backend/calculations.py:11-14 | an appended asset with price p and s shares adds exactly p × s; one without a price adds nothing |
| Calculations.UnpricedAssetIgnored | backend/calculations.py:12-15 | an unpriced asset contributes nothing wherever it stands |
| Calculations.CashCountsAtPar | backend/calculations.py:11-14 | when 'CASH' is priced at 1.0, a cash holding adds its share count |
| Calculations.EmptyPortfolio | backend/calculations.py:10-31 | no assets and no incomes give an all-zero report |
| Calculations.LiabilityOfSupportedUser | backend/calculations.py:22-29 | for SINGLE/CA both taxes are computed on the same total income |
| Calculations.TotalAssetsMarketValue | backend/calculations.py:10-15 | the accumulating loop gives Σ price × shares over the priced assets |
| Calculations.CalculateNetWorth | backend/calculations.py:5-40 | computes NetWorth, error cases included |
| Api.AssetToDict | backend/api.py:18-23 | exactly ticker, shares and cost basis |
| Api.IncomeToDict | backend/api.py:25-29 | the income type by a name that looks up to the same type, and the amount |
| Api.AssetDicts | backend/api.py:35 | one dict per asset, same order and fields |
| Api.IncomeDicts | backend/api.py:36 | one dict per income, same order, type and amount |
| Api.UpdatedAsset | backend/api.py:49-53 | QQQ takes qqqShares and NVDA takes nvdaShares when present; ticker, cost basis, type and everything of other assets unchanged |
| Api.UpdateStore | backend/api.py:44-53 | fails exactly on an empty income list; otherwise only incomes[0].amount and QQQ/NVDA shares change |
| Api.Response | backend/api.py:31-37 | the net-worth report plus the two lists, or the calculation's error |
| Api.InitialState | backend/api.py:9-16 | SINGLE/CA, one 120000 salary, QQQ 100/30000, NVDA 50/10000, CASH 25000/1 |
| Api.UpdateIdempotent | backend/api.py:46-53 | applying the same request twice gives the store of applying it once |
| Api.EmptyRequestChangesNothing | backend/api.py:46-53 | a request with none of the three keys leaves the store unchanged |
| Api.ResponseListsStore | backend/api.py:34-36 | the responses list assets and incomes with the store's length and order |
| Api.InitialStoreAnswers | backend/api.py:9-16 | the initial store answers with total income 120000 |
| Api.Store.constructor | backend/api.py:9-16 | the store starts in the initial state |
| Api.Store.GetNetWorth | backend/api.py:31-37 | returns Response of the current store and changes nothing |
| Api.Store.UpdatePortfolio | backend/api.py:39-59 | an empty income list fails before any write; otherwise the new store is UpdateStore of the old one and the answer is its Response |
| FirestoreDb.EmptyUserData | backend/firestore_db.py:28-35 | SINGLE/CA and four empty lists |
| FirestoreDb.Member | backend/firestore_db.py:53 | an enum lookup succeeds exactly on a string naming a member, and otherwise fails with that value |
| FirestoreDb.DecodeAll | backend/firestore_db.py:57-66 | on success, one decoded record per stored item, in order |
| FirestoreDb.UserDataOf | backend/firestore_db.py:25-100 | the defaults without a client or without the document; otherwise the decoded document |
| FirestoreDb.EncodeAsset | backend/firestore_db.py:121-127 | an encoded asset always has the retirement_account_id key |
| FirestoreDb.EncodeAll | backend/firestore_db.py:113-141 | one encoded item per record, in order |
| FirestoreDb.EncodeUserData | backend/firestore_db.py:110-142 | the document has exactly the six keys |
| FirestoreDb.SaveUserData | backend/firestore_db.py:102-144 | without a client nothing is written; otherwise the user's document is replaced whole and no other document changes |
| FirestoreDb.NormalizeAsset | backend/firestore_db.py:76-77 | an asset with the account attribute is unchanged; one without it gets a null attribute |
| FirestoreDb.NormalizeAssets | backend/firestore_db.py:121-127 | normalises each asset, keeping order |
| FirestoreDb.IncomeRoundTrip | backend/firestore_db.py:57-66 | decoding an encoded income gives it back |
| FirestoreDb.AssetRoundTrip | backend/firestore_db.py:68-78 | decoding an encoded asset gives it back, with the account attribute present |
| FirestoreDb.DebtRoundTrip | backend/firestore_db.py:80-88 | decoding an encoded debt gives it back |
| FirestoreDb.RetirementAccountRoundTrip | backend/firestore_db.py:90-98 | decoding an encoded retirement account gives it back |
| FirestoreDb.DecodeAllRoundTrip | backend/firestore_db.py:57-98 | a record round trip lifts to lists: success, same length, same order |
| FirestoreDb.IncomesRoundTrip | backend/firestore_db.py:57-66 | the income list round-trips exactly |
| FirestoreDb.AssetsRoundTrip | backend/firestore_db.py:68-78 | the asset list round-trips up to the null account attribute |
| FirestoreDb.DebtsRoundTrip | backend/firestore_db.py:80-88 | the debt list round-trips exactly |
| FirestoreDb.RetirementAccountsRoundTrip | backend/firestore_db.py:90-98 | the retirement-account list round-trips exactly |
| FirestoreDb.UserDataRoundTrip | backend/firestore_db.py:52-100 | decoding the saved document gives back the user, enums by name, and all four lists in order |
| FirestoreDb.SaveThenLoad | backend/firestore_db.py:102-144 | with a client, loading after saving returns what was saved; without one it returns the defaults |
| FirestoreDb.NormalizeIsStable | backend/firestore_db.py:126 | saving what was loaded stores the same document as the original save |
| FirestoreDb.EmptyDocumentDefaults | backend/firestore_db.py:52-58 | an empty document decodes to SINGLE/CA and four empty lists |
| FirestoreDb.RecordDefaults | backend/firestore_db.py:57-98 | a missing year becomes 2026; missing contributions become 0.0 |
| FirestoreDb.UnknownFilingStatusFails | backend/firestore_db.py:53 | an unknown filing-status name makes the load fail |
| FirestoreDb.DecodeAllFailsOnBadItem | backend/firestore_db.py:57-66 | one undecodable item makes the whole list fail |
| FirestoreDb.DecodeEach | backend/firestore_db.py:57-66 | the for/append loop computes DecodeAll |
| FirestoreDb.GetUserData | backend/firestore_db.py:25-100 | computes UserDataOf |
| Auth.IndexFrom | backend/auth.py:16 | the first occurrence of the separator at or after a position, or none |
| Auth.SecondPiece | backend/auth.py:16 | split(...)[1] exists exactly when the separator occurs |
| Auth.ExtractToken | backend/auth.py:12-16 | a token exactly when the header is present and starts with 'Bearer ' |
| Auth.Decide | backend/auth.py:9-29 | OPTIONS passes through; no token or an empty one is the guest; a rejected token is invalid with its reason; a verified token authenticates as its uid claim, or is invalid with error 'uid' when it has none; an authenticated uid is always the claim's |
| Auth.ExtractBearerToken | backend/auth.py:15-16 | 'Bearer ' + token yields the token when it holds no further separator |
| Auth.ExtractStopsAtNextPrefix | backend/auth.py:16 | the token ends at the next 'Bearer ' |
| Auth.ExtractExamples | backend/auth.py:16 | "Bearer abc" gives "abc"; "Bearer a Bearer b" gives "a "; "Bearer " gives "" |
| Auth.GuestFallback | backend/auth.py:15-21 | a missing header, one without the prefix, or the prefix alone runs as guest |
| Auth.VerifiedTokenAuthenticates | backend/auth.py:23-26 | an accepted token with a uid claim authenticates as that uid |
| Auth.TokenRequired | backend/auth.py:5-33 | sets request.uid and calls the handler, or returns 401 with the message and the reason, as Decide says |
| ClientData.OrElse | frontend/src/components/Dashboard.js:10 | `x ‖ y` on a number field: x when present and non-zero, else y |
| ClientData.FromAssetDict | backend/api.py:18-23 | the in-memory backend's asset has no type and no price |
| ClientData.FromIncomeDict | backend/api.py:25-29 | type name and amount carried over |
| ClientData.FromAssetDicts | backend/api.py:35 | one client asset per dict, in order |
| ClientData.FromIncomeDicts | backend/api.py:36 | one client income per dict, in order |
| ClientData.FromDebt | backend/models.py:68-70 | a debt read by the frontend carries the non-negative remaining balance the model computes |
| AssetTable.Value | frontend/src/components/AssetTable.js:20-24 | CASH/HOUSING worth their shares; others shares × price, and 0 without a truthy price; costPerShare × shares = cost basis when shares > 0, else 0; gainLoss = value − basis; percent × basis = gain × 100 when basis > 0, else 0 |
| AssetTable.RowOf | frontend/src/components/AssetTable.js:26-47 | CASH/HOUSING rows show '-' for cost/share, price and gain exactly; other rows show '+' exactly when gainLoss ≥ 0, with its magnitude and percent |
| AssetTable.Rows | frontend/src/components/AssetTable.js:19 | one row per asset, in input order |
| AssetTable.RowsConcat | frontend/src/components/AssetTable.js:19 | the rows of a concatenation are the concatenated rows |
| AssetTable.UnpricedBackendAsset | frontend/src/components/AssetTable.js:20-24 | an asset from the in-memory backend shows value 0 and a −100% loss |
| Dashboard.Entry | frontend/src/components/Dashboard.js:10 | name is the ticker; value is shares × price when the price is truthy, else shares × the whole cost basis |
| Dashboard.ChartData | frontend/src/components/Dashboard.js:10 | one entry per asset, in order, named by ticker |
| Dashboard.SliceColor | frontend/src/components/Dashboard.js:34 | every slice gets a palette colour |
| Dashboard.ColorsCycle | frontend/src/components/Dashboard.js:33-34 | slice i gets COLORS[i mod 4], repeating every four slices |
| Dashboard.ConsecutiveSlicesDiffer | frontend/src/components/Dashboard.js:7 | any two slices fewer than four apart have different colours |
| Dashboard.ChartMatchesTableWhenPriced | frontend/src/components/Dashboard.js:10 | a priced stock has the same value in the chart as in the table |
| Dashboard.ChartUsesBasisTimesShares | frontend/src/components/Dashboard.js:10 | without a price the chart and the table disagree |
| App.InitialView | frontend/src/App.js:49-64 | empty collections, zero amounts, SINGLE/CA, loading, modal closed on 'income' |
| App.TaxLiabilityOf | frontend/src/App.js:84-89 | the four tax entries come from the four response keys |
| App.RetirementAccountsOf | frontend/src/App.js:82 | a response without retirement_accounts yields [] |
| App.WithResponse | frontend/src/App.js:79-93 | all four collections, net worth, tax and filing info come from the response; error, loading and modal are kept |
| App.ErrorMessage | frontend/src/App.js:135 | the server's error when present and non-empty, else the transport message |
| App.AfterFetch | frontend/src/App.js:66-99 | loading ends; success takes the response and keeps any earlier error; failure records the message only |
| App.Started | frontend/src/App.js:106 | a save sets loading, which shows the loading screen exactly when the modal is closed |
| App.AfterSave | frontend/src/App.js:105-140 | success replaces everything from the response, closes the modal and clears the error; failure changes only error and loading |
| App.AfterSaveTaxInfo | frontend/src/App.js:142-172 | only net worth, tax and filing info change on success; collections and modal never change |
| App.EveryHandlerEndsLoading | frontend/src/App.js:179-181 | after any handler settles, the loading screen is gone |
| App.FailedSaveKeepsEdits | frontend/src/App.js:134-139 | a failed save keeps the modal open over the same collections and shows the server's error |
| App.SaveInFlightKeepsModal | frontend/src/App.js:179 | a save from the open modal never shows the loading screen while in flight |
| App.FetchKeepsStaleError | frontend/src/App.js:79-97 | a fetch that succeeds after a failed one still shows the old error |
| App.SaveClearsError | frontend/src/App.js:133 | a successful save clears the error a failed one left |
| App.OpenedEditModal | frontend/src/App.js:174-177 | the modal opens on the given tab and nothing else changes |
| App.MonthlyIncome | frontend/src/App.js:189 | monthly × 12 = annual |
| App.IncomeTotalsAgree | frontend/src/App.js:188 | the frontend's Σ amount equals the backend's total_income for the same amounts |
| App.IncomeViewMatchesBackend | frontend/src/App.js:188 | the income view of the in-memory backend's response shows the income the backend taxed |
| App.AssetValueTerm | frontend/src/App.js:210 | shares × price when priced; exactly the cost basis when shares ≠ 0 and no price; NaN only for zero shares with a non-zero basis |
| App.TotalAssetValueUndefined | frontend/src/App.js:210 | the total is NaN exactly when some asset's term is |
| App.UnpricedHoldingValuedThreeWays | frontend/src/App.js:210 | an unpriced stock counts its basis in the total, 0 in the table and shares × basis in the chart |
| App.UnpricedHoldingsAtCost | frontend/src/App.js:210 | unpriced holdings with shares > 0 total their cost bases |
| App.DebtTotalOfBalances | frontend/src/App.js:223 | when no balance in the response is negative, the total is non-negative and at least every single balance |
| App.DebtTotalBounds | frontend/src/App.js:223 | the same bounds for balances computed by the model's remaining_balance |
| App.MainContent.constructor | frontend/src/App.js:49-64 | the component starts in InitialView |
| App.MainContent.SetFromResponse | frontend/src/App.js:79-93 | the setters yield WithResponse of the old state |
| App.MainContent.FetchData | frontend/src/App.js:66-99 | the new state is AfterFetch of the old |
| App.MainContent.HandleSave | frontend/src/App.js:105-140 | the in-flight state is Started of the old; the final one AfterSave of that |
| App.MainContent.HandleSaveTaxInfo | frontend/src/App.js:142-172 | the in-flight state is Started of the old; the final one AfterSaveTaxInfo of that |
| App.MainContent.OpenEditModal | frontend/src/App.js:174-177 | the new state is OpenedEditModal of the old |
| App.MainContent.CloseModal | frontend/src/App.js:283 | only the modal flag changes |
| EditPortfolio.FirstIndex | frontend/src/components/EditPortfolio.js:9 | the first asset with the ticker, or none if no asset has it |
| EditPortfolio.Find | frontend/src/components/EditPortfolio.js:9 | a found asset has the ticker; none is found exactly when no asset has it |
| EditPortfolio.Loaded | frontend/src/components/EditPortfolio.js:8-22 | QQQ/NVDA shares load from the first matching asset and stay otherwise; income loads from incomes[0] only when non-empty |
| EditPortfolio.NumberOf | frontend/src/components/EditPortfolio.js:26-28 | a number stays itself; typed text goes through Number() |
| EditPortfolio.Payload | frontend/src/components/EditPortfolio.js:24-30 | exactly the three keys, each the field's Number() |
| EditPortfolio.LoadedSharesOfUniqueTicker | frontend/src/components/EditPortfolio.js:9-11 | with one asset of a ticker, the loaded field holds that asset's shares |
| EditPortfolio.NoEditSaveKeepsStore | frontend/src/components/EditPortfolio.js:8-30 | an unedited save leaves the in-memory store unchanged when incomes is non-empty and QQQ and NVDA appear at most once |
| EditPortfolio.DuplicateTickerIsOverwritten | frontend/src/components/EditPortfolio.js:9-11 | with two QQQ holdings the unedited save gives the second the first one's shares |
| EditPortfolio.Editor.constructor | frontend/src/components/EditPortfolio.js:4-6 | the three fields start at 0 |
| EditPortfolio.Editor.Load | frontend/src/components/EditPortfolio.js:8-22 | the fields become Loaded of the old ones |
| EditPortfolio.Editor.OnQqqSharesChange | frontend/src/components/EditPortfolio.js:41 | only qqqShares changes, to the typed text |
| EditPortfolio.Editor.OnNvdaSharesChange | frontend/src/components/EditPortfolio.js:52 | only nvdaShares changes, to the typed text |
| EditPortfolio.Editor.OnAnnualIncomeChange | frontend/src/components/EditPortfolio.js:63 | only annualIncome changes, to the typed text |
| EditPortfolio.Editor.HandleSave | frontend/src/components/EditPortfolio.js:24-30 | returns the three-key payload of the current fields |

## Left out

- Models.RemainingBalance: the bound "at most initial_amount" is stated only when initial_amount is non-negative as well as amount_paid, because a negative initial amount gives a balance of 0, which is above it.
- Models.USState: only the five states the enum lists.
- Models.AccountType and the Income.year and Asset.retirement_account_id fields are not declared in backend/models.py. They are taken from the serialiser. The AccountType member names K401, B403, ROTH_IRA and TRADITIONAL_IRA are assumed: backend/firestore_db.py:95 only looks a member up by name.
- SQLAlchemy: the id and user_id columns, sessions and engines. Column defaults (STOCK, amount_paid = 0) are applied when a record is built.
- The price service (backend/price_service.py) and its network call. The price lookup is a parameter; its fixed price of 1.0 for CASH appears only as a hypothesis of Calculations.CashCountsAtPar.
- Firestore I/O: `get_db`, the client, `get()` and `set()`. They are replaced by a map from user id to document, or no client.
- FirestoreDb.DecodeIncome, DecodeAsset, DecodeDebt and DecodeRetirementAccount reject a stored value of the wrong kind with WrongType. Python would carry such a value along unchecked.
- `auth.verify_id_token` is a parameter. Flask routing, `jsonify`, CORS and the wrapped handler's own response are left out.
- Api.Request: request bodies are maps from key to number. A non-number value or a non-object body is not modelled.
- Api.Store.UpdatePortfolio: records are values, so the in-place mutation of shared Python objects (aliasing) is not modelled.
- Floats are modelled as reals. `float('inf')` is the unbounded top bracket. NaN appears only in the investments total (App.TotalAssetValue, as None), where `cost_basis / shares` can be NaN or an infinity.
- Number() on typed text is a parameter. Text that is not a number (NaN, sent as null) is not modelled.
- App.ResponseData: the lists assets, incomes and debts are always present. A response lacking one, which leaves the state undefined, is not modelled. The in-memory backend's responses have no debts, retirement_accounts, estimated_fica_tax, filing_status or state keys; the optional fields cover the last four.
- Transport: axios calls, `getIdToken`, `alert`, window events, `ErrorBoundary`, the active view and the layout. Each request's outcome is an input.
- React scheduling: setters are immediate assignments in source order. The form's effect is the explicit `Editor.Load`.
- Rendering and formatting: `toLocaleString`, `toFixed`, recharts and icons.
- setup_project.js, Login.js, Layout.js, Modal.js and Card.js hold UI and setup only.
- ClientData.FromDebt: the frontend is assumed to receive each debt's remaining_balance as `Debt.remaining_balance` (backend/models.py:68-70) computes it, because no endpoint in the source sends debts, and backend/firestore_db.py:128-134 stores no remaining_balance. App.DebtTotalOfBalances covers any non-negative balances.
- Default arguments: `user_id="default_user"` of get_user_data and save_user_data, and `filing_status='single'` and `state='CA'` of the two tax calculators. The model's versions always take these arguments, as every call site in the source passes them.
