# Budget and expenses tracker: a Dafny model of the services

The budget-expenses-tracker backend keeps personal finances (accounts,
categories, budgets, transactions and their reports) and shared finances
(groups, members, group expenses split among members, settlements). This
project models the service layer of both halves in Dafny and proves what
the services promise.

- **Repositories** are a generic class `Common.Table<T>` with a `rows`
  sequence and the next auto-increment id. In the source, a `findOne` returns
  the first matching row in table order, `save` of a new entity appends it,
  `save` of a loaded entity overwrites it in place, and `remove` deletes it.
- **Every service method** becomes a Dafny `method` or `function`. It takes the
  tables it reads and declares `modifies` for the tables it writes. The acting
  user's id is a parameter.
- **Each exception** of the source (`NotFoundException`, `ForbiddenException`,
  `BadRequestException`) becomes an `Err`/`Failed` outcome. The contract says
  the tables are unchanged on that path unless its row says otherwise:
  createSplits, and group expense `create` through it, keep the split rows
  saved before the BadRequest, as the source does.
- **Loops over rows stay loops**, with invariants that tie them to recursive
  specification functions:
  - the greedy settlement distribution;
  - the category seeders;
  - budget alerts and rollover;
  - the group balance map;
  - the report tallies.
- **Amounts** are mathematical reals. **Dates** are integers (day numbers).
  Anything the source reads from the clock ("today", "now", the current and
  previous month) is a parameter.

Modules:

| module | file | source |
|---|---|---|
| `Common` | common.dfy | repository table, Option/Result, sums and filters |
| `Entities` | entities.dfy | the entity columns the services use |
| `GroupMembers` | members.dfy | src/groups-members/groups-members.service.ts |
| `Groups` | groups.dfy | src/groups/groups.service.ts |
| `PayerCreditedBalances` | balances.dfy | corrected `getGroupBalances` (see Findings) |
| `GroupExpenses` | expenses.dfy | src/groups-expenses/groups-expenses.service.ts |
| `Settlements`, `OwnDebtSettlements` | settlements.dfy | src/settlements/settlements.service.ts |
| `ExpenseSplits` | splits.dfy | src/expense-splits/expense-splits.service.ts |
| `Budgets` | budgets.dfy | src/budgets/budgets.service.ts |
| `Accounts` | accounts.dfy | src/accounts/accounts.service.ts |
| `Sorting` | sorting.dfy | `Array.prototype.sort` with the comparators the reports use, and the `ORDER BY` of the listings |
| `TransactionReports` | transactions.dfy | src/transactions/transactions.service.ts |
| `Categories` | categories.dfy | src/categories/categories.service.ts |
| `CategorySeed` | seed.dfy | src/seed/seeds/categories.seed.ts |

Where the prose description of the system and the code disagree, the model
follows the code:

- **getGroupBalances** credits the payer only with their own split
  (groups.service.ts:174-179). It does not credit the payer with what the
  other members owe.
- **markSplitsAsSettled** pours a settlement over the splits of expenses the
  settler *paid* (settlements.service.ts:87-95). It does not use the splits
  the settler owes.

Both cases are listed under Findings, each with a corrected module.

## Model

| member | source | states |
|---|---|---|
| GroupMembers.IsMember | src/groups-members/groups-members.service.ts:196-201 | true exactly when some row makes the user an active member of the group |
| GroupMembers.IsAdmin | src/groups-members/groups-members.service.ts:204-214 | true exactly when some row makes the user an active ADMIN of the group |
| GroupMembers.VerifyAdmin | src/groups-members/groups-members.service.ts:217-223 | Done exactly when the user is an active admin, Forbidden otherwise |
| GroupMembers.AdminRowCounts | src/groups-members/groups-members.service.ts:145-150 | an active admin row of the user makes the group's admin count at least 1 |
| GroupMembers.AdminCountUpdate | src/groups-members/groups-members.service.ts:145-150 | overwriting one row changes a group's admin count by exactly that row's old and new contribution |
| GroupMembers.DeactivateAdminCount | src/groups-members/groups-members.service.ts:153-156 | deactivating a row removes at most one admin, and only from that row's group |
| GroupMembers.OtherRowKeepsAdmin | src/groups-members/groups-members.service.ts:100-124 | changing another user's row keeps the actor an active admin, so the group keeps an admin |
| GroupMembers.AddMember | src/groups-members/groups-members.service.ts:28-78 | Forbidden for a non-admin actor; NotFound for an unresolved user; BadRequest for an active membership; an inactive row is reactivated in place; otherwise one active row with the role (MEMBER by default) is appended; admin counts never drop |
| GroupMembers.UpdateRole | src/groups-members/groups-members.service.ts:100-124 | Forbidden, NotFound, or BadRequest when admins change their own role; otherwise only that row's role changes; the actor stays admin and the group keeps an admin |
| GroupMembers.RemoveMember | src/groups-members/groups-members.service.ts:127-161 | admin only; the last admin cannot remove themself; otherwise exactly that row is deactivated; the group always has an admin afterwards and other groups' admin counts do not move |
| GroupMembers.LeaveGroup | src/groups-members/groups-members.service.ts:164-193 | NotFound without an active row; the last admin may not leave; otherwise exactly that row is deactivated and the group keeps any admin it had |
| Groups.ApplyPatchIdempotent | src/groups/groups.service.ts:259-272 | the update's assignment is idempotent, an empty patch changes nothing, and the id is kept |
| Groups.VerifyAdmin | src/groups/groups.service.ts:194-207 | Done exactly when the user is an active admin, otherwise Forbidden |
| Groups.VerifyMember | src/groups/groups.service.ts:212-224 | Done exactly when the user is an active member, otherwise Forbidden |
| Groups.FindOne | src/groups/groups.service.ts:241-254 | the group is returned exactly when it exists and the user is a member; NotFound for an unknown id, Forbidden for a non-member |
| Groups.Create | src/groups/groups.service.ts:45-61 | the group is appended, then an active ADMIN row for the creator, who is then an admin |
| Groups.AddMember | src/groups/groups.service.ts:80-97 | admin only; always appends a new MEMBER row, even for an existing member (the user's active-row count grows by 1); admin counts unchanged |
| Groups.Update | src/groups/groups.service.ts:259-272 | findOne's errors, then Forbidden for non-admins, otherwise only that row is patched |
| Groups.Remove | src/groups/groups.service.ts:277-285 | findOne's errors, then Forbidden for non-admins, otherwise only that row is deleted |
| Groups.EqualSharesSum | src/groups/groups.service.ts:129-157 | under `equal` each listed member owes total / n and the shares add up to the total; any other method saves no split |
| Groups.SavedSplitsAreTheExpensesSplits | src/groups/groups.service.ts:129-157 | the rows written are exactly the new expense's splits; a split is pre-paid and settled exactly when it is the payer's |
| Groups.CreateExpense | src/groups/groups.service.ts:102-124 | Forbidden for non-members; otherwise the expense with the actor as payer is appended and then its planned splits, and the answer is the expense with its splits as findExpenseWithSplits reads them back, which are exactly the splits just saved when no earlier split points at the new id |
| Groups.VisitsMembers | src/groups/groups.service.ts:163-173 | the loop visits exactly the pairs of a group expense and one of its splits |
| Groups.UsersListed | src/groups/groups.service.ts:184-187 | the returned users are exactly those with a split in the group |
| Groups.UsersDistinct | src/groups/groups.service.ts:184-187 | no user is returned twice |
| Groups.AbsentUserZero | src/groups/groups.service.ts:171-182 | a user without a split has nothing on either side |
| Groups.NetBalanceIgnoresPaid | src/groups/groups.service.ts:174-179 | the balance depends on owed amounts only, never on what was paid or settled |
| Groups.TallyStep | src/groups/groups.service.ts:171-181 | one loop step keeps the Map equal to the per-user sums, keys in first-appearance order |
| Groups.TallyEntries | src/groups/groups.service.ts:184-187 | the `entries().map` list is each user's owed − owes |
| Groups.TallyExpense | src/groups/groups.service.ts:171-182 | the inner loop keeps the tally over one expense's splits |
| Groups.GetGroupBalances | src/groups/groups.service.ts:162-189 | one entry per user, in first-appearance order, with owed − owes as the loop computes it |
| PayerCreditedBalances.PayerCreditedWithOwnShare | src/groups/groups.service.ts:174-179 | as written, a 90.00 dinner paid by A and split three ways gives A +30, B −30, C −30: the balances add up to −30 and A is not credited with the 60 owed |
| PayerCreditedBalances.PartiesListed | src/groups/groups.service.ts:162-189 | the corrected list of parties is distinct and holds exactly the payers and split users |
| PayerCreditedBalances.VisitCancels | src/groups/groups.service.ts:174-179 | under the corrected reading, one split credits its payer by exactly what it debits its user |
| PayerCreditedBalances.BalancesCancel | src/groups/groups.service.ts:162-189 | corrected balances over any distinct list naming every party add up to 0 |
| PayerCreditedBalances.IntendedBalancesNetToZero | src/groups/groups.service.ts:162-189 | the corrected getGroupBalances has one entry per party and its balances net to zero |
| GroupExpenses.SavedCount | src/groups-expenses/groups-expenses.service.ts:88-127 | the loop saves the rows before the first member the switch rejects, or all of them |
| GroupExpenses.SavedCountIs | src/groups-expenses/groups-expenses.service.ts:88-127 | the first rejected member alone fixes how many rows are saved |
| GroupExpenses.SplitRowsShape | src/groups-expenses/groups-expenses.service.ts:88-127 | each saved row owes the switch's amount; the payer's own row is pre-paid and settled, every other row starts unpaid |
| GroupExpenses.EqualSplitsSumToTotal | src/groups-expenses/groups-expenses.service.ts:91-95 | under `equal` nobody is rejected and the shares add up to the total |
| GroupExpenses.SavedAllUnlessFalsy | src/groups-expenses/groups-expenses.service.ts:96-110 | under `percentage` / `exact_amounts` every row is saved exactly when no member's value is missing or zero |
| GroupExpenses.PercentageSplitsSum | src/groups-expenses/groups-expenses.service.ts:96-102 | the saved percentage shares add up to the members' percentages of the total |
| GroupExpenses.PercentOwedSum | src/groups-expenses/groups-expenses.service.ts:96-102 | the members' percentages of a total add up to total × (sum of percentages) / 100 |
| GroupExpenses.PercentagesOfHundred | src/groups-expenses/groups-expenses.service.ts:96-102 | percentages that add up to 100 split the whole total |
| GroupExpenses.ExactSplitsSumToAmounts | src/groups-expenses/groups-expenses.service.ts:103-110 | exact shares add up to the given amounts |
| GroupExpenses.SharesOweNothing | src/groups-expenses/groups-expenses.service.ts:91-111 | `shares` has no case, so every split owes 0 |
| GroupExpenses.ReconcilesFresh | src/groups-expenses/groups-expenses.service.ts:129-134 | the 0.01 check passes exactly when the new rows' owed sum is within 0.01 of the total |
| GroupExpenses.ExpenseNoticesReachOthers | src/groups-expenses/groups-expenses.service.ts:140-155 | every notice goes to a listed member other than the payer, and every such member is told |
| GroupExpenses.ShareOwed | src/groups-expenses/groups-expenses.service.ts:89-111 | a member is refused exactly when the method needs a percentage or an amount the member lacks (or has as 0); otherwise the share it owes |
| GroupExpenses.CreateSplits | src/groups-expenses/groups-expenses.service.ts:81-137 | the rows saved before a rejection stay; BadRequest on a rejection or a failed 0.01 check |
| GroupExpenses.NotifyMembers | src/groups-expenses/groups-expenses.service.ts:140-155 | exactly the notices to the other members are appended |
| GroupExpenses.Create | src/groups-expenses/groups-expenses.service.ts:35-78 | Forbidden for non-members; otherwise the expense (paid by the actor) and its splits are saved, and members are told only when the splits pass, the answer being the expense with its splits as findOneWithSplits reads them back; a failure leaves the saved rows |
| GroupExpenses.FindOneWithSplits | src/groups-expenses/groups-expenses.service.ts:191-202 | NotFound exactly for an unknown id; otherwise the expense and exactly its splits |
| GroupExpenses.ApplyPatchFields | src/groups-expenses/groups-expenses.service.ts:255-275 | the patch overwrites exactly the fields it holds, payer and group included, is idempotent and keeps the id |
| GroupExpenses.Update | src/groups-expenses/groups-expenses.service.ts:255-275 | NotFound; Forbidden unless the actor paid or administers the group; otherwise only that row is patched |
| GroupExpenses.Remove | src/groups-expenses/groups-expenses.service.ts:278-305 | NotFound; Forbidden as for update; BadRequest while a non-payer split is settled; otherwise only the expense row is deleted |
| GroupExpenses.OutstandingNonNegative | src/groups-expenses/groups-expenses.service.ts:228-249 | while no split is overpaid, outstanding sums are not negative |
| GroupExpenses.GetUserExpenses | src/groups-expenses/groups-expenses.service.ts:205-252 | exactly the expenses the user paid in the group, newest first (`expenseDate DESC`) and each as often as in the table, and the user's unsettled splits there, in table order and each as often as in the table, with their totals; total owed is the outstanding sum, not negative while nothing is overpaid |
| Settlements.CandidatesPaidByPayer | src/settlements/settlements.service.ts:87-95 | the candidates are exactly the unsettled splits on group expenses the settler paid, each once, in table order |
| Settlements.Pour | src/settlements/settlements.service.ts:97-115 | the distribution changes no row count |
| Settlements.StepApplies | src/settlements/settlements.service.ts:100-113 | one step applies min(remaining, outstanding), stays within what is owed, and moves on only after retiring the split |
| Settlements.PourFrame | src/settlements/settlements.service.ts:97-115 | only candidate rows are written |
| Settlements.PickAfterWrite | src/settlements/settlements.service.ts:97-115 | later candidates are unchanged when the loop reaches them |
| Settlements.PourRest | src/settlements/settlements.service.ts:97-115 | the paid and outstanding totals split into the first candidate and the rest |
| Settlements.PaidAfterWrite | src/settlements/settlements.service.ts:97-115 | the paid total after writing the first candidate |
| Settlements.PourApplies | src/settlements/settlements.service.ts:97-115 | the candidates receive min(amount, their total outstanding); any excess is left over and dropped |
| Settlements.PourBounded | src/settlements/settlements.service.ts:97-115 | no split is overpaid, no paid amount falls, only paid and settled change |
| Settlements.PourRetiresPrefix | src/settlements/settlements.service.ts:97-115 | a changed candidate comes after retired ones only |
| Settlements.PourOver | src/settlements/settlements.service.ts:97-115 | the loop leaves the splits as the distribution function says |
| Settlements.MarkSplitsAsSettled | src/settlements/settlements.service.ts:82-116 | the amount is poured over the candidates as written |
| Settlements.Create | src/settlements/settlements.service.ts:32-79 | NotFound for an unknown group; BadRequest unless the actor is the payer; otherwise the settlement is saved with the current time, poured, and the payer is told |
| Settlements.GetSettlementHistory | src/settlements/settlements.service.ts:140-155 | exactly the user's settlements in the group, newest first (`date DESC`) and each as often as in the table; total paid and net balance are both their summed amounts |
| Settlements.HistoryAfterCreate | src/settlements/settlements.service.ts:140-155 | a new settlement raises only its payer's total, by its amount |
| Settlements.Update | src/settlements/settlements.service.ts:158-177 | NotFound; BadRequest unless the actor is the payer; otherwise only that row is patched |
| Settlements.Remove | src/settlements/settlements.service.ts:180-191 | NotFound; BadRequest unless the actor is the payer; otherwise only that row is deleted |
| OwnDebtSettlements.SettlementMissesOwnDebt | src/settlements/settlements.service.ts:87-95 | as written, B settling 30.00 of a debt to A touches nothing of B's, while A settling 30.00 marks B's split paid |
| OwnDebtSettlements.OwnDebtsOfPayer | src/settlements/settlements.service.ts:87-95 | the corrected candidates are exactly the settler's open splits on group expenses someone else paid |
| OwnDebtSettlements.MarkOwnDebtsAsSettled | src/settlements/settlements.service.ts:82-116 | the corrected loop pours over the settler's own debts |
| OwnDebtSettlements.OutstandingDrop | src/settlements/settlements.service.ts:97-115 | with owed amounts fixed, outstanding drops by exactly what was paid |
| OwnDebtSettlements.SettlingReducesOwnDebt | src/settlements/settlements.service.ts:82-116 | the settler's debt drops by min(amount, debt) and no one else's split changes |
| ExpenseSplits.FindOne | src/expense-splits/expense-splits.service.ts:21-32 | the split with the id, or NotFound exactly when there is none |
| ExpenseSplits.Settled | src/expense-splits/expense-splits.service.ts:53-62 | a settled split is paid in full and keeps its debt |
| ExpenseSplits.SettledIdempotent | src/expense-splits/expense-splits.service.ts:53-62 | settling twice is settling once |
| ExpenseSplits.MarkAsSettled | src/expense-splits/expense-splits.service.ts:53-62 | NotFound, or only that split is settled |
| ExpenseSplits.PartialPayment | src/expense-splits/expense-splits.service.ts:65-86 | BadRequest exactly when paid + amount exceeds owed; otherwise paid grows by the amount and the split is settled once paid reaches owed |
| ExpenseSplits.PayingOutstandingSettles | src/expense-splits/expense-splits.service.ts:65-86 | paying exactly the outstanding amount is settling |
| ExpenseSplits.PartialPaymentsAdd | src/expense-splits/expense-splits.service.ts:65-86 | two accepted payments are accepted and equal one payment of their sum |
| ExpenseSplits.MakePartialPayment | src/expense-splits/expense-splits.service.ts:65-86 | NotFound; BadRequest with the table unchanged; otherwise only that split is saved |
| ExpenseSplits.UnsettledByUser | src/expense-splits/expense-splits.service.ts:44-50 | exactly the user's unsettled splits, each as often as in the table |
| ExpenseSplits.GetUserBalance | src/expense-splits/expense-splits.service.ts:89-106 | owed and paid summed over the unsettled splits; the remainder is the outstanding sum, not negative while nothing is overpaid |
| ExpenseSplits.RemainingNonNegative | src/expense-splits/expense-splits.service.ts:89-106 | the remainder is not negative while no split is overpaid |
| ExpenseSplits.SettlingLowersRemaining | src/expense-splits/expense-splits.service.ts:53-62 | settling an open split lowers the user's remaining balance by its outstanding amount |
| Budgets.Create | src/budgets/budgets.service.ts:49-72 | BadRequest exactly when an active budget of the user has the same period and category; otherwise the new budget is appended |
| Budgets.CreatedBudgetBlocksRepeat | src/budgets/budgets.service.ts:49-72 | once an active budget is created, the same create is refused |
| Budgets.FindOne | src/budgets/budgets.service.ts:195-205 | the user's budget with the id, or NotFound exactly when the user has none |
| Budgets.Remove | src/budgets/budgets.service.ts:220-224 | NotFound, or only that row is deleted |
| Budgets.SpendingAfterTransaction | src/budgets/budgets.service.ts:115-133 | a new transaction raises spending by its amount exactly when it is the user's expense in the category and window |
| Budgets.SpendingNonNegative | src/budgets/budgets.service.ts:115-133 | spending is not negative while no amount is |
| Budgets.AlertIsPercentageTest | src/budgets/budgets.service.ts:138-155 | for a non-zero budget amount and threshold, the alert test is spent / amount × 100 ≥ threshold |
| Budgets.ActiveBudgets | src/budgets/budgets.service.ts:78-80 | exactly the user's active budgets |
| Budgets.AlertsPerDueBudget | src/budgets/budgets.service.ts:85-107 | one budget alert to its owner per budget over its threshold, and no other notice |
| Budgets.AlertsStep | src/budgets/budgets.service.ts:85-107 | one more budget adds its alert when due |
| Budgets.FindAll | src/budgets/budgets.service.ts:77-110 | each active budget with its spending and percentage, and exactly the alerts due |
| Budgets.TrackAll | src/budgets/budgets.service.ts:86-107 | the loop yields each listed budget with its spending and percentage, and appends exactly the alerts due, in order, one id each |
| Budgets.Track | src/budgets/budgets.service.ts:87-106 | one budget's spending and percentage, and one alert notice exactly when it is over its threshold |
| Budgets.GetBudgetVsActual | src/budgets/budgets.service.ts:160-190 | one line per active budget over the given window |
| Budgets.ReportBalances | src/budgets/budgets.service.ts:160-190 | remaining amounts add up to budgeted − spent; a line is over budget exactly when its remainder is negative |
| Budgets.Rollover | src/budgets/budgets.service.ts:227-268 | each ended active budget of the user is deactivated, and a carry-over budget is appended for what it left unspent |
| Budgets.CarriedBudgets | src/budgets/budgets.service.ts:236-262 | one new budget per ended budget with money left, each active, owned by the user, positive, with consecutive ids |
| Budgets.RolloverLeavesNoEndedBudget | src/budgets/budgets.service.ts:227-268 | afterwards no old budget of the user is active and ended; every other row is untouched |
| Accounts.FromInput | src/accounts/accounts.service.ts:29-37 | a new account's current balance starts at its initial balance |
| Accounts.Create | src/accounts/accounts.service.ts:29-37 | the new account is appended |
| Accounts.FindAll | src/accounts/accounts.service.ts:40-46 | exactly the user's accounts, the inactive ones only when asked for |
| Accounts.AdjustmentRecordsChange | src/accounts/accounts.service.ts:74-85 | the adjustment transaction's signed amount is exactly the balance change, income when it rises |
| Accounts.AdjustBalance | src/accounts/accounts.service.ts:63-93 | NotFound for another user's account; otherwise one adjustment transaction is appended and the balance is set |
| Accounts.GetTotalBalance | src/accounts/accounts.service.ts:96-114 | the total is the sum of the active accounts' balances, with one line per account |
| Accounts.TotalAfterAdjustment | src/accounts/accounts.service.ts:63-114 | adjusting an active account moves the total by exactly the balance change |
| Accounts.Archive | src/accounts/accounts.service.ts:117-129 | NotFound, or only the active flag is cleared |
| Accounts.ArchivedLeavesTotal | src/accounts/accounts.service.ts:117-129 | an archived account leaves the default listing and the total, and stays in the full listing |
| Accounts.Remove | src/accounts/accounts.service.ts:151-162 | NotFound; BadRequest while a transaction refers to the account; otherwise only that row is deleted |
| Sorting.SortBy | src/transactions/transactions.service.ts:91 | sorting keeps the length and the elements |
| Sorting.SortSorted | src/transactions/transactions.service.ts:91 | under a total preorder the result is ordered and a permutation |
| Sorting.SortSum | src/transactions/transactions.service.ts:91 | sorting does not change a sum |
| Sorting.DescendingIsTotalPreorder | src/transactions/transactions.service.ts:91 | `b.amount - a.amount` is a total preorder |
| Sorting.LexTotal | src/transactions/transactions.service.ts:136 | any two keys compare |
| Sorting.LexTransitive | src/transactions/transactions.service.ts:136 | key order chains |
| Sorting.LexAntisymmetric | src/transactions/transactions.service.ts:136 | keys at most each other are equal |
| Sorting.AscendingIsTotalPreorder | src/transactions/transactions.service.ts:136 | `a.date.localeCompare(b.date)` is a total preorder |
| TransactionReports.ShareOf | src/transactions/transactions.service.ts:175 | `x > 0 ? a / x × 100 : 0`, stated as r × x = a × 100 for x > 0 and 0 otherwise |
| TransactionReports.TypeTotalSnoc | src/transactions/transactions.service.ts:162-168 | a new transaction adds its amount to its own type's total only |
| TransactionReports.EntryIndex | src/transactions/transactions.service.ts:71 | the Map lookup finds the entry with the name, or there is none |
| TransactionReports.TallySum | src/transactions/transactions.service.ts:66-82 | the entries add up to the sum of all amounts |
| TransactionReports.TallyDistinct | src/transactions/transactions.service.ts:66-82 | no name has two entries |
| TransactionReports.TallyCovers | src/transactions/transactions.service.ts:66-82 | every transaction's name has an entry |
| TransactionReports.TallyAmounts | src/transactions/transactions.service.ts:66-82 | each entry holds the sum over the transactions with its name |
| TransactionReports.TallyLoop | src/transactions/transactions.service.ts:66-82 | the forEach builds the tally and `totalExpenses` is the sum of all amounts |
| TransactionReports.GetSpendingByCategory | src/transactions/transactions.service.ts:52-92 | the report over the user's expenses in the window |
| TransactionReports.SpendingByCategoryRows | src/transactions/transactions.service.ts:84-91 | sorted by amount, largest first; one row per category name; each row holds the sum over that category's expenses |
| TransactionReports.SpendingByCategoryCovers | src/transactions/transactions.service.ts:66-91 | every category with an expense in the window has a row |
| TransactionReports.SpendingByCategoryTotal | src/transactions/transactions.service.ts:84-91 | the row amounts add up to the total expenses |
| TransactionReports.SpendingPercentagesTotal | src/transactions/transactions.service.ts:88 | with non-zero total expenses, the percentages add up to 100 |
| TransactionReports.SharesAddUp | src/transactions/transactions.service.ts:88 | percentages over the tally add up to 100 |
| TransactionReports.RowSharesAddUp | src/transactions/transactions.service.ts:88 | before sorting, the percentages add up to 100 |
| TransactionReports.BucketIndex | src/transactions/transactions.service.ts:115 | the Map lookup finds the bucket with the key, or there is none |
| TransactionReports.BucketsTotals | src/transactions/transactions.service.ts:113-127 | one bucket per date key; incomes add up to the income total, expenses to the expense total |
| TransactionReports.BucketLoop | src/transactions/transactions.service.ts:113-127 | the forEach builds the buckets |
| TransactionReports.GetIncomeExpenseTrends | src/transactions/transactions.service.ts:97-137 | the trend rows over the user's transactions in the window |
| TransactionReports.TrendsOrdered | src/transactions/transactions.service.ts:129-136 | dates strictly increasing and distinct; net = income − expense |
| TransactionReports.TrendsTotals | src/transactions/transactions.service.ts:129-136 | the rows' incomes and expenses add up to the window's totals |
| TransactionReports.GetMonthlyComparison | src/transactions/transactions.service.ts:142-180 | twelve rows, one per month, with that month's totals, net = income − expense and savings rate 0 when income ≤ 0 |
| TransactionReports.GetCashFlowAnalysis | src/transactions/transactions.service.ts:185-223 | closing = the active balance total; opening + net = closing; operating = net; investing = 0 |
| TransactionReports.NetWorthOf | src/transactions/transactions.service.ts:233-250 | assets sum the non-liability balances, liabilities the magnitudes of negative credit-card balances |
| TransactionReports.GetNetWorth | src/transactions/transactions.service.ts:228-258 | net worth = assets − liabilities = the active balance total; liabilities ≥ 0; one line per account |
| TransactionReports.NetWorthIsTotalBalance | src/transactions/transactions.service.ts:228-258 | assets − liabilities equals the plain sum of balances |
| TransactionReports.TopExpenses | src/transactions/transactions.service.ts:322-336 | the first five of the ranked categories |
| TransactionReports.GetDashboardSummary | src/transactions/transactions.service.ts:263-370 | current and previous month totals; budgeted = sum of active budgets; remaining = budgeted − spent; percentage used as ShareOf; top expenses as ranked |
| TransactionReports.TopExpensesAreLargest | src/transactions/transactions.service.ts:333-336 | at most five, sorted, and none smaller than a category left out |
| TransactionReports.RankedCategoriesAreTotals | src/transactions/transactions.service.ts:322-331 | one entry per category name, holding the sum over that category's expenses |
| Categories.NameTaken | src/categories/categories.service.ts:26-28 | finds a category of the user with the name, active or not, or there is none |
| Categories.Create | src/categories/categories.service.ts:22-41 | BadRequest exactly when the user already has the name; otherwise a non-default category of the user is appended |
| Categories.CreatedCategoryBlocksRepeat | src/categories/categories.service.ts:22-41 | a created category is the user's own, not a default, and blocks a second create with the name |
| Categories.ListOrderIsTotalPreorder | src/categories/categories.service.ts:62 | `isDefault DESC, name ASC` is a total preorder |
| Categories.FindAll | src/categories/categories.service.ts:44-66 | exactly the active defaults and the user's active categories, of the type when given; defaults first, each group by name |
| Categories.ListingMembers | src/categories/categories.service.ts:50-63 | the listing holds exactly the rows matching either `where` alternative |
| Categories.ListingSorted | src/categories/categories.service.ts:62 | the listing follows the order clause |
| Categories.SystemCategoriesListedFirst | src/categories/categories.service.ts:62 | every system category is listed before every custom one |
| Categories.TypedListingsSplitAll | src/categories/categories.service.ts:69-76 | the income and expense listings split the full listing with no overlap |
| Categories.FindOne | src/categories/categories.service.ts:79-90 | the category with the id, whoever owns it, or NotFound exactly when there is none |
| Categories.CategoryIndex | src/categories/categories.service.ts:98-100 | finds the user's category with the id, or there is none |
| Categories.Editable | src/categories/categories.service.ts:98-108 | NotFound exactly when the user has no such category; BadRequest exactly when it is a system category; otherwise its position |
| Categories.ApplyPatch | src/categories/categories.service.ts:110 | the assignment keeps id and owner and overwrites the given fields |
| Categories.PatchLaws | src/categories/categories.service.ts:110 | an empty patch changes nothing; a patch applied twice is applied once |
| Categories.Update | src/categories/categories.service.ts:93-112 | NotFound or BadRequest as above; otherwise only that row is patched |
| Categories.UsedBy | src/categories/categories.service.ts:129 | true exactly when some transaction refers to the category |
| Categories.Remove | src/categories/categories.service.ts:115-137 | NotFound; BadRequest for a system category or one in use; otherwise only that row is deleted |
| Categories.Deactivate | src/categories/categories.service.ts:140-156 | NotFound; BadRequest for a system category; otherwise only that row's active flag is cleared |
| Categories.DeactivatedIsHidden | src/categories/categories.service.ts:140-156 | a deactivated category leaves every listing, and no category joins one |
| Categories.SystemCategoriesUntouched | src/categories/categories.service.ts:106-108 | update, remove and deactivate never touch a system category's row |
| CategorySeed.SystemCategoriesCounts | src/seed/seeds/categories.seed.ts:19-137 | sixteen system categories, five for income and eleven for expenses |
| CategorySeed.DefaultIndex | src/seed/seeds/categories.seed.ts:140-142 | finds a default category with the name, or there is none |
| CategorySeed.SeedSystemCategories | src/seed/seeds/categories.seed.ts:18-151 | inserts, in order, each of the sixteen system categories whose name no default category has yet |
| CategorySeed.SaveMissingDefaults | src/seed/seeds/categories.seed.ts:139-148 | the loop inserts, in order, each listed category whose name no default category has yet, consuming one id per row |
| CategorySeed.SeedKeepsRows | src/seed/seeds/categories.seed.ts:139-148 | existing rows stay as they were; added rows are ownerless defaults named after the list |
| CategorySeed.SeedKeepsFound | src/seed/seeds/categories.seed.ts:139-148 | a default category with a name is still found after seeding |
| CategorySeed.SeedCovers | src/seed/seeds/categories.seed.ts:139-148 | afterwards every listed name has a default category |
| CategorySeed.SeedNothingMissing | src/seed/seeds/categories.seed.ts:139-148 | when every name is present, seeding adds nothing |
| CategorySeed.SeedSystemIdempotent | src/seed/seeds/categories.seed.ts:139-148 | seeding twice leaves the table as seeding once |
| CategorySeed.CreateDefaultCategoriesForUser | src/seed/seeds/categories.seed.ts:153-182 | copies, in order, each active default category taken at the start whose name the user has no category for |
| CategorySeed.CopyKeepsRows | src/seed/seeds/categories.seed.ts:162-179 | existing rows stay; each added row is the user's own, active and not default, copying a system category's name, type, colour and icon |
| CategorySeed.CopyKeepsFound | src/seed/seeds/categories.seed.ts:162-179 | a category of the user with a name is still found after copying |
| CategorySeed.CopyCovers | src/seed/seeds/categories.seed.ts:162-179 | afterwards the user has a category named after every system category |
| CategorySeed.CopyNothingMissing | src/seed/seeds/categories.seed.ts:162-179 | when the user already has every name, nothing is added |
| CategorySeed.CopySystemUnchanged | src/seed/seeds/categories.seed.ts:157-176 | the copies are not defaults, so the active system categories are the same afterwards |
| CategorySeed.CopyDefaultsIdempotent | src/seed/seeds/categories.seed.ts:153-182 | copying the defaults for a user twice leaves the table as copying once |

## Left out

- I/O, logging, timestamps (`created_at`/`updated_at`) and the message strings of exceptions and notifications: only the kind of notice and its recipient are kept.
- The database itself: atomicity and transactions (a failing call leaves every earlier `save` in place, as the source does), concurrency, relation loading beyond the rows the services read, and SQL collation: names and date keys compare by character code.
- Floating point: amounts are exact reals, so `Number(...)` conversions, NaN and Infinity and the decimal(19,2) column rounding are not modelled. Where the source divides by zero (a report percentage with no expenses) the model states the non-zero case.
- The clock: "today", "now" and the date windows of the month reports are parameters. `calculateEndDate`, `getDateKey` and the month boundaries built with `new Date(...)` are functions passed in, and month names (`toLocaleString`) are left out.
- Authentication, users, the user lookup by e-mail in addMember (a parameter), and the controllers.
- Read-only listings that only pass a query through: findAllByGroup and findUserGroups (members, groups, expenses, settlements), findUserSettlements, findByExpense, findOneWithTransactions, exportToCSV, getAllTransactions, transaction `create`, and the dashboard's recent_transactions.
- Budget and account `update`: the update DTO files of budgets, accounts, settlements and categories are not part of this model, so their patches hold the create DTOs' fields.
- Categories.ApplyPatch: the patch has no `user_id` or `currency` field, so an update that reassigns the owner or the currency is not modelled.
- The category `currency` column: no service reads it, and the model has no such column. The seeders' inserts, which leave it out although it is NOT NULL, are assumed to succeed (see Database failures). The system rows, whose NOT NULL `user_id` the seeder leaves out too, are owned by `None`.
- Budgets.FindAll: the active budgets come in table order, not newest first (`createdAt DESC`), because creation timestamps are not modelled.
- Accounts.FindAll: the accounts come in table order, not newest first (`createdAt DESC`), for the same reason.
- Sorting.SortBy: it is proved ordered and a permutation, but not stable.
- Budgets.Rollover: the source saves the carried-over budget without `name`, a NOT NULL column (src/budgets/entities/budget.entity.ts:30-31), so the insert would evidently be refused; the model assumes it succeeds and has no name column.
- UnsettledByUser: the splits come in table order, not newest first (`createdAt DESC`), because split creation timestamps are not modelled.
- GetUserBalance: its `splits` list is UnsettledByUser's, so it is in table order rather than `createdAt DESC`; the totals do not depend on the order.
- GetUserExpenses: paid expenses with the same `expenseDate` come in an order the database leaves open; the model promises only that the list is newest first and a permutation of the matching rows.
- GetSettlementHistory: settlements with the same date come in an order the database leaves open; the model promises only that the list is newest first and a permutation of the matching rows.
- Database failures: the model assumes every query and write succeeds. Among the calls that would evidently fail as the source is written:
  - the carried-over budget's missing `name` (see Budgets.Rollover);
  - the relation name `'split.group_expense'` in the joins of getUserExpenses and markSplitsAsSettled (src/groups-expenses/groups-expenses.service.ts:228, src/settlements/settlements.service.ts:89), where the split entity's relation is `groupExpense`;
  - `expenseRepo.remove` of an expense whose splits still reference it, with no cascade declared (src/groups-expenses/groups-expenses.service.ts:302);
  - the relations `'paid_by'` and `'category'` that findOneWithSplits loads (src/groups-expenses/groups-expenses.service.ts:194), and `'category'` that findExpenseWithSplits loads (src/groups/groups.service.ts:234): the group expense declares only `group`, `paidBy` and `splits` (src/groups-expenses/entities/groups-expense.entity.ts:79-88), and an unknown relation makes the query throw. Group-expense `create` and the groups service's `createExpense` would throw after their writes; findOneWithSplits, `update` and `remove` would throw before theirs;
  - the category inserts of both seeders, which leave out the NOT NULL `currency` column (src/categories/entities/category.entity.ts:37-38; src/seed/seeds/categories.seed.ts:145, 168-176), and the system seeder's, which also leaves out the NOT NULL `user_id` column (src/categories/entities/category.entity.ts:24-25).
- GroupExpenses.Create: its answer, the expense with its splits as findOneWithSplits reads them, holds only if the database accepts that query (see Database failures); GroupExpenses.FindOneWithSplits, GroupExpenses.Update, GroupExpenses.Remove and Groups.CreateExpense rest on the same assumption.
- CategorySeed.SeedSystemIdempotent: it holds only if the database accepts the seeder's inserts, which leave out `currency` and `user_id` (see Database failures).
- CategorySeed.CopyDefaultsIdempotent: it holds only if the database accepts the copies, which leave out `currency` (see Database failures).
- Splits whose expense no longer exists are never visited by the balance loop, as in the source.

## Findings

| source | as written | input that shows it | evidently intended | confidence | as-written member | corrected member |
|---|---|---|---|---|---|---|
| src/settlements/settlements.service.ts:87-95 | the settlement is poured over unsettled splits on expenses the settler paid, i.e. what others owe the settler | A pays 60.00, split equally with B; B settles 30.00: nothing of B's changes; A settles 30.00: B's split is marked paid | pour it over the settler's own open splits on expenses others paid | high, not executed | OwnDebtSettlements.SettlementMissesOwnDebt | OwnDebtSettlements.SettlingReducesOwnDebt |
| src/groups/groups.service.ts:174-179 | the payer's `owed` grows only by the payer's own split, so nobody is credited with what the others owe | A pays 90.00, split equally among A, B and C: balances A +30.00, B −30.00, C −30.00; they add up to −30.00 | credit the payer with every other member's split, so balances net to zero (A +60.00) | high, not executed | PayerCreditedBalances.PayerCreditedWithOwnShare | PayerCreditedBalances.IntendedBalancesNetToZero |
