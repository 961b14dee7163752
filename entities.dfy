/** The rows of the tables the services read and write. Timestamps
    (created/updated/joined/settled-at) are left out; `settled_at` is the
    `settled` flag; dates are abstract day numbers. */
module Entities {
  import opened Common

  // group_members

  datatype Role = Admin | Member

  datatype MemberRow = MemberRow(id: nat, groupId: nat, userId: nat, role: Role, active: bool)

  // groups

  datatype GroupType = Couples | Organizations | Family | Friends | Roommates | Others

  datatype Group = Group(id: nat, code: string, name: string, description: Option<string>,
                         groupType: GroupType, active: bool)

  // group_expenses and their splits (table recurring_splits)

  datatype SplitMethod = Equal | Percentage | ExactAmounts | Shares

  datatype GroupExpense = GroupExpense(id: nat, groupId: nat, paidBy: nat, name: string, total: real,
                                       categoryId: Option<nat>, splitMethod: SplitMethod, date: int)

  datatype Split = Split(id: nat, expenseId: nat, userId: nat, owed: real, paid: real, settled: bool)

  /** A freshly saved split: the payer's own share is saved as already paid
      and settled, every other share as unpaid. */
  function NewSplit(id: nat, expenseId: nat, userId: nat, payer: nat, owed: real): Split {
    Split(id, expenseId, userId, owed, if userId == payer then owed else 0.0, userId == payer)
  }

  function OwedOf(s: Split): real {
    s.owed
  }

  function PaidOf(s: Split): real {
    s.paid
  }

  /** What is still owed on a split: `amountOwed - amountPaid`. */
  function Outstanding(s: Split): real {
    s.owed - s.paid
  }

  function OfExpense(expenseId: nat): Split -> bool {
    (s: Split) => s.expenseId == expenseId
  }

  /** `splitRepo.find({ where: { group_expense_id } })`, in table order. */
  function SplitsOf(rows: seq<Split>, expenseId: nat): seq<Split> {
    Filter(rows, OfExpense(expenseId))
  }

  /** If no earlier split belongs to an expense and all added ones do, the
      expense's splits are exactly the added ones. */
  lemma SplitsOfFresh(before: seq<Split>, added: seq<Split>, expenseId: nat)
    requires forall i :: 0 <= i < |before| ==> before[i].expenseId != expenseId
    requires forall i :: 0 <= i < |added| ==> added[i].expenseId == expenseId
    ensures SplitsOf(before + added, expenseId) == added
  {
    var p := OfExpense(expenseId);
    FilterAppend(before, added, p);
    FilterNone(before, p);
    FilterAll(added, p);
  }

  // settlements

  datatype Settlement = Settlement(id: nat, groupId: nat, payerId: nat, amount: real,
                                   notes: Option<string>, date: int)

  // notifications: only who is told and why

  datatype NoticeKind = GroupExpenseCreated | SettlementRecorded | BudgetAlert

  datatype Notice = Notice(userId: nat, kind: NoticeKind)

  // transactions

  datatype TxType = Income | Expense | Transfer

  /** `date` is the nullable `start_date` column the reports filter on. */
  datatype Transaction = Transaction(id: nat, userId: nat, accountId: Option<nat>, categoryId: Option<nat>,
                                     txType: TxType, amount: real, date: Option<int>, description: string)

  /** `start_date: Between(start, end)`: inclusive, and a missing date never matches. */
  predicate DatedWithin(t: Transaction, start: int, end: int) {
    t.date.Some? && start <= t.date.value <= end
  }

  function TxAmount(t: Transaction): real {
    t.amount
  }

  // accounts

  datatype AccountType = CreditCard | Cash | Bank

  datatype Account = Account(id: nat, userId: nat, name: string, accountType: AccountType, currency: string,
                             initialBalance: real, currentBalance: real, active: bool)

  // budgets

  datatype BudgetPeriod = Weekly | Monthly | Yearly

  datatype Budget = Budget(id: nat, userId: nat, categoryId: Option<nat>, name: string, amount: real,
                           period: BudgetPeriod, start: int, end: Option<int>, threshold: Option<real>,
                           active: bool)

  // categories

  datatype CategoryType = ForIncome | ForExpense

  datatype Category = Category(id: nat, userId: Option<nat>, name: string, categoryType: CategoryType,
                               color: Option<string>, icon: Option<string>, isDefault: bool, active: bool)
}
