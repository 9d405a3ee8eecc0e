# Personal-finance ledger, modelled in Dafny

This project models the core of a small personal-finance library.
- A closed **category registry** maps codes 1, 2 and 3 to "Pagamento", "Depósito" and "Transferência".
- A **transaction** is an amount, a date, a category name and a description. It can be updated attribute by attribute.
- An **account** keeps a running balance and a date-ordered ledger of transactions. It can be filtered by date range and by category.
- An **investment** grows by compound interest per whole 30-day month since its purchase. It can be sold into an account.
- A **client** holds accounts with distinct names and a list of investments. Its net worth is the sum of the balances and the investment values. The future-value report also projects that net worth.

The model has six modules:

- `Registry` (`registry.dfy`) holds the categories, the error kinds, and the `Option` and `Result` types. Each operation that raises in the library returns a `Failure` with the error it raises.
- `Growth` (`growth.dfy`) covers elapsed whole days and months, Python's `float ** int` including negative exponents, and the growth formula.
- `DateOrder` (`date_order.dfy`) models Python's stable `list.sort(key=...)` as a stable insertion sort on keyed entries. Its lemmas prove that the sort orders the entries, permutes them, leaves a sorted list as it is, and turns a sorted list plus one appended entry into an insertion after every entry with an equal or smaller key.
- `Sequences` (`sequences.dfy`) defines order-preserving subsequences.
- `Totals` (`totals.dfy`) covers sums with failures, a client's net worth over balances and holdings, and the projected net worth.
- `Finances` (`finances.dfy`) holds the objects themselves. `Transaction`, `Account`, `Investment` and `Client` are classes whose methods update their fields. Each method is proved against the value-level functions above.

`scenarios.dfy` replays the situations of the repository's tests against the contracts alone. It covers:
- the category filter;
- the refused category;
- the duplicate account;
- the update;
- the net worth of 3020.10, before and after the investment is sold.

Conventions:
- A date is an integer timestamp in seconds.
- Every read of the clock (`datetime.now()`) is an explicit `now` parameter.
- Money is an exact `real`.
- `(b - a).days // 30` is whole days rounded down, then whole 30-day months rounded down. Dafny's `/` agrees with Python's `//` for a positive divisor.

Three behaviours of the code a reader might not expect:
- The error messages are the Portuguese ones in the code.
- `get_transactions` looks the category code up only after a transaction has passed both date criteria. So an unknown code raises `KeyError` only then. With an empty or out-of-range ledger it returns an empty list.
- Raising `0.0` to a negative power (a rate of −1 with a negative month count) is a `ZeroDivisionError` in Python. Here it is the `ZeroToNegativePower` failure.

## Model

| member | source | states |
|---|---|---|
| Registry.Resolve | finances/main.py:5-9 | a code resolves exactly when it is 1, 2 or 3, to its registry name; otherwise the invalid-category error |
| Registry.NamesIdentifyCodes | finances/main.py:5-9 | two registry codes have the same name exactly when they are the same code, so a filter by name selects by code |
| Registry.DepositIsValid | finances/main.py:130 | the code posted by a sale is in the registry and names "Depósito" |
| Growth.Power | finances/main.py:121 | `b ** e` is the e-th power for e ≥ 0, the reciprocal power for e < 0, and fails exactly when b is zero and e negative |
| Growth.ElapsedDays | finances/main.py:120 | the whole days elapsed, rounded down: that many days fit in the span and one more does not |
| Growth.ElapsedMonths | finances/main.py:120 | the whole 30-day months elapsed, rounded down; negative exactly when the end precedes the start |
| Growth.Grow | finances/main.py:121 | principal times (1 + rate) to the months; for negative months growing back gives the principal; fails exactly when months < 0 and rate = −1 |
| Growth.Value | finances/main.py:119-121 | the value fails exactly for rate −1 before the purchase date, and from the purchase on is the compound formula over elapsed months |
| Growth.ValueWithinFirstMonth | finances/main.py:120-121 | within 30 days of the purchase the value is the principal |
| Growth.ValueAfterSixMonths | finances/main.py:120-121 | after 180 days the value is the principal grown over six months |
| Growth.ValueCompounds | finances/main.py:120-121 | waiting m more months multiplies the value by (1 + rate) to the m |
| Growth.ZeroPrincipalIsWorthless | finances/main.py:121 | a zero principal is worth zero wherever the value is defined |
| Growth.Examples | Tests/test_investment.py:15-25 | 1000 at 5% after 180 days is 1340.095640625; 1000 at 1% after 60 days is 1020.1 |
| DateOrder.InsertAt | finances/main.py:79 | a stable insertion splits the list at the slot; later entries have larger keys, earlier entries of a sorted list no larger |
| DateOrder.InsertSorted | finances/main.py:79 | inserting into a key-sorted list keeps it sorted |
| DateOrder.InsertPermutes | finances/main.py:79 | inserting adds exactly the new entry to the multiset |
| DateOrder.StableSortSorted | finances/main.py:79 | the sort's result is ordered by key |
| DateOrder.StableSortPermutes | finances/main.py:79 | the sort's result is a permutation of its input |
| DateOrder.InsertItems | finances/main.py:79 | inserting an entry adds its item to the items and nothing else |
| DateOrder.StableSortItems | finances/main.py:79 | the items of the sorted sequence are a permutation of the input's items |
| DateOrder.StableSortOfSorted | finances/main.py:79 | a key-sorted list is left unchanged |
| DateOrder.SortAppended | finances/main.py:78-79 | sorting a sorted list plus an appended entry inserts it after every entry with key at most its own, and the result is sorted |
| Sequences.SubsequenceCons | finances/main.py:93-98 | a subsequence of a list stays one when an element is put in front |
| Sequences.SubsequenceMembers | finances/main.py:93-98 | a subsequence is no longer than the list and its members are members of the list |
| Finances.PatchFails | finances/main.py:44-46 | an update raises exactly when some attribute is an unknown category code, and then raises the invalid-category error |
| Finances.PatchKeepsCategory | finances/main.py:45-47 | after any update the category is still a registry name |
| Finances.PatchKeepsUnnamed | finances/main.py:44-47 | each of the four fields that no attribute names keeps its value |
| Finances.PatchConcat | finances/main.py:44-47 | updating with a + b is updating with a, then with b unless a raised |
| Finances.PatchStopsAtInvalid | finances/main.py:44-47 | the update is not atomic: the attributes before the first unknown code stay applied when it raises |
| Finances.PatchExample | Tests/test_transaction.py:31-40 | the update of the test replaces amount, category and description and keeps the date |
| Finances.Transaction.Init | finances/main.py:25-28 | given a registry name as category, the four fields hold the given values and the transaction is valid |
| Finances.Transaction.Create | finances/main.py:23-28 | fails with the invalid-category error exactly for a code outside the registry; otherwise a fresh valid transaction dated now with the code's name |
| Finances.Transaction.Update | finances/main.py:44-47 | the new fields and the error raised are those of the attribute-by-attribute update of the old fields; a valid category stays valid |
| Finances.SortKeepsKeys | finances/main.py:79 | the sort keeps each entry keyed by its own transaction's date |
| Finances.SortByDateSorted | finances/main.py:79 | sorting any ledger by date leaves it date-sorted |
| Finances.SortByDatePermutes | finances/main.py:79 | sorting any ledger by date is a permutation of it |
| Finances.TotalSplice | finances/main.py:77-78 | inserting a transaction anywhere in a ledger adds its amount to the ledger's total |
| Finances.DatedSplice | finances/main.py:79 | pairing transactions with their dates commutes with inserting one transaction |
| Finances.ItemsSplice | finances/main.py:79 | dropping the dates commutes with inserting one transaction |
| Finances.PostIntoSorted | finances/main.py:78-79 | posting to a date-sorted ledger inserts after every entry dated no later, keeps the old order and leaves the ledger date-sorted |
| Finances.PostKeepsLedger | finances/main.py:77-79 | a post keeps the balance equal to the ledger's total, the ledger date-sorted and every category a registry name |
| Finances.Filter | finances/main.py:93-98 | the only error raised is the KeyError of the category lookup, and with a known code or none nothing is raised |
| Finances.FilterFails | finances/main.py:93-98 | the filter raises exactly when the code is unknown and some transaction lies in the date range |
| Finances.FilterSelects | finances/main.py:93-98 | when it does not raise, the result is an order-preserving selection from the ledger holding exactly the transactions that meet every criterion |
| Finances.FilterNothing | finances/main.py:93-98 | with no criteria the whole ledger comes back in its order |
| Finances.FilterCons | finances/main.py:94-97 | with a known code or none, the transaction in front is kept exactly when it meets every criterion, ahead of the filtered rest |
| Finances.SelectsByCode | finances/main.py:97 | a filter by code d keeps a transaction posted with code c, and in the date range, exactly when c is d |
| Finances.FilterSingle | finances/main.py:94-97 | a single transaction is kept exactly when it meets every criterion |
| Finances.Account.constructor | finances/main.py:59-61 | a new account has the name, balance zero, an empty ledger, and is consistent |
| Finances.Account.GetTransactions | finances/main.py:93-98 | the filter of the ledger: raises the KeyError exactly when the code is unknown and some transaction lies in the date range; otherwise an order-preserving selection from the ledger of exactly the transactions meeting every criterion |
| Finances.Account.Post | finances/main.py:77-79 | the balance gains the amount and the ledger is the stable date sort of the old one plus the transaction; a consistent account stays consistent with the transaction inserted after all entries dated no later |
| Finances.Account.AddTransaction | finances/main.py:74-80 | an unknown code fails and changes nothing; otherwise the new transaction is dated now, the balance grows by the amount, the ledger is the stable date sort of the old one plus the new entry, and a consistent account stays consistent with the entry inserted after all entries dated no later |
| Finances.Investment.constructor | finances/main.py:112-115 | the type, principal and rate are the given ones and the purchase date is now |
| Finances.Investment.CalculateValue | finances/main.py:117-121 | the value fails exactly for rate −1 before the purchase date, and from the purchase on is the compound formula |
| Finances.Investment.Sell | finances/main.py:123-131 | when the value is defined, a deposit of the value named after the type is posted to the account and the principal becomes zero, so every later defined valuation is zero; when it is not defined nothing changes |
| Finances.Client.constructor | finances/main.py:138-140 | a new client has the name and no accounts or investments |
| Finances.Client.AddAccount | finances/main.py:151-155 | fails exactly when the name is already taken; otherwise appends a fresh empty account of that name and keeps account names distinct |
| Finances.Client.AddInvestment | finances/main.py:163 | appends the investment and changes nothing else |
| Finances.Client.GetNetWorth | finances/main.py:165-169 | fails exactly when some investment cannot be valued; otherwise the sum of the balances plus the sum of the current investment values |
| Finances.Client.ProjectedNetWorth | finances/main.py:202-223 | the projection fails exactly when some investment has rate −1 and either the future date is past or the investment is not yet purchased |
| Totals.SumAppend | finances/main.py:167 | the sum of a concatenation is the sum of the parts |
| Totals.SumUpdate | finances/main.py:167 | changing one balance changes the sum by the difference |
| Totals.SumAllFails | finances/main.py:168 | a sum of values that may raise raises exactly when one of them raises |
| Totals.SumAllUpdate | finances/main.py:168 | replacing one defined summand changes the total by the difference |
| Totals.NetWorthFails | finances/main.py:165-169 | net worth is undefined exactly when some holding has rate −1 and a purchase date after now |
| Totals.NewAccountKeepsNetWorth | finances/main.py:153-154 | a new account, at balance zero, leaves net worth unchanged |
| Totals.NewInvestmentAddsValue | finances/main.py:163 | a new investment adds its current value to net worth |
| Totals.SaleKeepsNetWorth | finances/main.py:129-131 | selling an investment into an account leaves net worth at the moment of sale unchanged |
| Scenarios.PaymentFilterExample | Tests/test_account.py:37-43 | a payment and a deposit filtered by the payment code leave the payment only |
| Totals.NetWorthExample | Tests/test_client.py:35-50 | a balance of 2000 and 1000 at 1% bought 60 days ago make a net worth of 3020.1 |
| Totals.FutureTotalFails | finances/main.py:209-211 | growing every principal fails exactly when the months are negative and some rate is −1 |
| Totals.ProjectedNetWorth | finances/main.py:220-223 | the projected figure, as written, fails exactly as the projection does and equals the intended figure plus the current investment value |
| Totals.CorrectedProjectedNetWorth | finances/main.py:220-223 | the intended figure fails exactly for a past future date with some rate −1 |
| Totals.DoubleCountExample | finances/main.py:220-223 | for one investment of 1000 at 0% projected to today, the figure as written is 2000 while the net worth and the intended figure are 1000 |
| Totals.CorrectedIsFutureNetWorth | finances/main.py:202-223 | for investments purchased now, the intended figure is exactly the net worth on the future date |

## Left out

- The clock is not modelled. Every `datetime.now()` is the `now` parameter. Within one report, `future_value_report` reads the clock at finances/main.py:202 and again inside `get_net_worth`; the model uses one instant for both.
- Timestamps are whole seconds. Sub-second precision of `datetime` is dropped; `timedelta.days` floors the same way.
- Binary floating point is not modelled: money is exact, so rounding of `round(x, 2)` in the tests and float error in `**` are absent.
- `Transaction.__str__`, `generate_report` and the text of `future_value_report` are string formatting only and are not modelled; the figures they print are `balance`, `GetNetWorth`, `CalculateValue`, `Grow` and `ProjectedNetWorth`.
- `calculate_value()` without a date uses the clock; here the date is always passed (the clock's reading as `now`).
- `update` accepts any keyword through `setattr`; the model has the four fields only. A Python keyword can appear once per call, while the attribute sequence may repeat one; the model applies them in order.
- Finances.Transaction.Update: after a posted transaction's date or amount is updated, the account's balance and order are not revised, exactly as in the library, so `Account.Valid` may no longer hold; the model does not track this through aliasing.
- Finances.Account.AddTransaction: for a ledger that is no longer date-sorted (only possible after such an update), the contract states the result as the stable sort by date of the whole ledger; `SortByDateSorted` and `SortByDatePermutes` prove that sort date-sorted and a permutation of the ledger, but the position of the new entry among equal dates is proved only for an already sorted ledger.
- Finances.Investment.Sell: returns the posted transaction (Python returns `None`), so that the contract can describe it. It zeroes the principal just before posting the deposit rather than just after; posting neither reads nor changes the investment and cannot fail for the deposit code, so the resulting state is the same.
- The investment type is a string; Python accepts any object (one test passes `2`).
- `exemplos.py` is a usage script with console output and is not part of this model; the tests are replayed in `scenarios.dfy`.
- Callers may assign fields directly, as the tests do with `balance`, `date_purchased` and `name`; the model's fields are assignable too, except an account's name, an investment's type and its rate, which nothing in the library assigns. `isinstance` checks of the tests have no counterpart; the types are static.

## Findings

| source | as written | input that shows it | evidently intended | confidence | as-written member | corrected member |
|---|---|---|---|---|---|---|
| finances/main.py:220-223 | the projected net worth adds the projected value of every investment to `get_net_worth()`, which already includes each investment's current value, so every investment is counted twice | a client with no accounts and one investment of 1000 at rate 0, projected to the current date: the report shows 2000 while the net worth is 1000 (`Totals.DoubleCountExample`) | the balances plus the projected investment values, which for investments bought now is the net worth on the future date | not executed | Totals.ProjectedNetWorth | Totals.CorrectedProjectedNetWorth |
