/** The report bodies of TransactionsService, taken over the transaction,
    account, budget and category tables: spending by category, income and
    expense trends, the monthly comparison, cash flow, net worth and the
    dashboard summary. The date windows and date keys the service derives
    from the calendar are parameters. */
module TransactionReports {
  import opened Common
  import opened Entities
  import opened Sorting
  import Accounts
  import Budgets

  // ------------------------------------------------------------------
  // Queries and totals

  /** `{ user_id, startDate: Between(start, end) }`. */
  function InWindow(u: nat, start: int, end: int): Transaction -> bool {
    (t: Transaction) => t.userId == u && DatedWithin(t, start, end)
  }

  function OfType(ty: TxType): Transaction -> bool {
    (t: Transaction) => t.txType == ty
  }

  /** `.filter(t => t.type === ty).reduce((s, t) => s + t.amount, 0)`. */
  function TypeTotal(txs: seq<Transaction>, ty: TxType): real {
    SumBy(Filter(txs, OfType(ty)), TxAmount)
  }

  lemma TypeTotalSnoc(txs: seq<Transaction>, t: Transaction, ty: TxType)
    ensures TypeTotal(txs + [t], ty) == TypeTotal(txs, ty) + (if t.txType == ty then t.amount else 0.0)
  {
    var p := OfType(ty);
    FilterAppend(txs, [t], p);
    assert [t][..0] == [];
    if p(t) {
      assert Filter([t], p) == [t];
      SumBySnoc(Filter(txs, p), t, TxAmount);
    } else {
      assert Filter([t], p) == [];
      assert Filter(txs, p) + [] == Filter(txs, p);
    }
  }

  lemma TypeTotalLast(txs: seq<Transaction>, ty: TxType)
    requires txs != []
    ensures TypeTotal(txs, ty) == TypeTotal(txs[..|txs| - 1], ty)
                                  + (if txs[|txs| - 1].txType == ty then txs[|txs| - 1].amount else 0.0)
  {
    assert txs == txs[..|txs| - 1] + [txs[|txs| - 1]];
    TypeTotalSnoc(txs[..|txs| - 1], txs[|txs| - 1], ty);
  }

  /** `whole > 0 ? (part / whole) * 100 : 0`, the savings rate and the share
      of the budget used. */
  function ShareOf(part: real, whole: real): (r: real)
    ensures whole > 0.0 ==> r * whole == part * 100.0
    ensures whole <= 0.0 ==> r == 0.0
  {
    if whole > 0.0 then part / whole * 100.0 else 0.0
  }

  // ------------------------------------------------------------------
  // Grouping amounts by name (the `Map` of the category reports)

  datatype Entry = Entry(name: string, amount: real, color: string)

  function EntryAmount(e: Entry): real {
    e.amount
  }

  function EntryIndex(es: seq<Entry>, name: string): (r: Option<nat>)
    ensures r.Some? ==> r.value < |es| && es[r.value].name == name
    ensures r.None? ==> forall j :: 0 <= j < |es| ==> es[j].name != name
  {
    FindFirst(es, (e: Entry) => e.name == name)
  }

  /** One transaction added to the map: a new name is added at the end with
      the amount, a known one has the amount added; either way the entry
      takes the transaction's color. */
  function TallyStep(es: seq<Entry>, t: Transaction, nameOf: Transaction -> string, colorOf: Transaction -> string)
    : seq<Entry>
  {
    match EntryIndex(es, nameOf(t))
    case None => es + [Entry(nameOf(t), t.amount, colorOf(t))]
    case Some(j) => es[j := Entry(nameOf(t), es[j].amount + t.amount, colorOf(t))]
  }

  /** The map after each transaction in turn. */
  function Tally(txs: seq<Transaction>, nameOf: Transaction -> string, colorOf: Transaction -> string): seq<Entry> {
    if txs == [] then []
    else TallyStep(Tally(txs[..|txs| - 1], nameOf, colorOf), txs[|txs| - 1], nameOf, colorOf)
  }

  function NamedAs(nameOf: Transaction -> string, name: string): Transaction -> bool {
    (t: Transaction) => nameOf(t) == name
  }

  lemma StepSum(es: seq<Entry>, t: Transaction, nameOf: Transaction -> string, colorOf: Transaction -> string)
    ensures SumBy(TallyStep(es, t, nameOf, colorOf), EntryAmount) == SumBy(es, EntryAmount) + t.amount
  {
    var idx := EntryIndex(es, nameOf(t));
    if idx.None? {
      var x := Entry(nameOf(t), t.amount, colorOf(t));
      assert TallyStep(es, t, nameOf, colorOf) == es + [x];
      SumBySnoc(es, x, EntryAmount);
    } else {
      var j := idx.value;
      var x := Entry(nameOf(t), es[j].amount + t.amount, colorOf(t));
      assert TallyStep(es, t, nameOf, colorOf) == es[j := x];
      SumByUpdate(es, j, x, EntryAmount);
    }
  }

  /** Grouping keeps every amount: the entries add up to the transactions. */
  lemma {:induction false} TallySum(txs: seq<Transaction>, nameOf: Transaction -> string, colorOf: Transaction -> string)
    ensures SumBy(Tally(txs, nameOf, colorOf), EntryAmount) == SumBy(txs, TxAmount)
  {
    if txs != [] {
      var init, t := txs[..|txs| - 1], txs[|txs| - 1];
      assert txs == init + [t];
      TallySum(init, nameOf, colorOf);
      SumBySnoc(init, t, TxAmount);
      StepSum(Tally(init, nameOf, colorOf), t, nameOf, colorOf);
    }
  }

  predicate DistinctNames(es: seq<Entry>) {
    forall i, j :: 0 <= i < j < |es| ==> es[i].name != es[j].name
  }

  /** Every transaction's name has an entry. */
  predicate NamesCovered(es: seq<Entry>, txs: seq<Transaction>, nameOf: Transaction -> string) {
    forall i :: 0 <= i < |txs| ==> EntryIndex(es, nameOf(txs[i])).Some?
  }

  /** Each entry's amount is the sum over the transactions with its name. */
  predicate TotalsByName(es: seq<Entry>, txs: seq<Transaction>, nameOf: Transaction -> string) {
    forall k :: 0 <= k < |es| ==> es[k].amount == SumBy(Filter(txs, NamedAs(nameOf, es[k].name)), TxAmount)
  }

  /** A step keeps every entry's name in place, adds the transaction's name at
      the end only when it is new, and afterwards that name has an entry. */
  lemma StepNames(es: seq<Entry>, t: Transaction, nameOf: Transaction -> string, colorOf: Transaction -> string)
    ensures var r := TallyStep(es, t, nameOf, colorOf);
            |es| <= |r| <= |es| + 1
            && (forall k :: 0 <= k < |es| ==> r[k].name == es[k].name)
            && (|r| == |es| + 1 ==> r[|es|].name == nameOf(t) && EntryIndex(es, nameOf(t)).None?)
            && EntryIndex(r, nameOf(t)).Some?
  {
    var r := TallyStep(es, t, nameOf, colorOf);
    match EntryIndex(es, nameOf(t))
    case None =>
      assert r[|es|].name == nameOf(t);
    case Some(j) =>
      assert r[j].name == nameOf(t);
  }

  lemma StepDistinct(es: seq<Entry>, t: Transaction, nameOf: Transaction -> string, colorOf: Transaction -> string)
    requires DistinctNames(es)
    ensures DistinctNames(TallyStep(es, t, nameOf, colorOf))
  {
    var r := TallyStep(es, t, nameOf, colorOf);
    StepNames(es, t, nameOf, colorOf);
    forall i, j | 0 <= i < j < |r| ensures r[i].name != r[j].name {
      assert r[i].name == es[i].name;
      if j < |es| {
        assert r[j].name == es[j].name;
      }
    }
  }

  lemma StepCovers(es: seq<Entry>, init: seq<Transaction>, t: Transaction,
                   nameOf: Transaction -> string, colorOf: Transaction -> string)
    requires NamesCovered(es, init, nameOf)
    ensures NamesCovered(TallyStep(es, t, nameOf, colorOf), init + [t], nameOf)
  {
    var r := TallyStep(es, t, nameOf, colorOf);
    var txs := init + [t];
    StepNames(es, t, nameOf, colorOf);
    forall i | 0 <= i < |txs| ensures EntryIndex(r, nameOf(txs[i])).Some? {
      if i < |init| {
        assert txs[i] == init[i];
        var k := EntryIndex(es, nameOf(init[i])).value;
        assert r[k].name == nameOf(init[i]);
      }
    }
  }

  /** An entry whose name is not the transaction's keeps its sum. */
  lemma EntryKept(init: seq<Transaction>, t: Transaction, nameOf: Transaction -> string, e: Entry)
    requires e.name != nameOf(t)
    requires e.amount == SumBy(Filter(init, NamedAs(nameOf, e.name)), TxAmount)
    ensures e.amount == SumBy(Filter(init + [t], NamedAs(nameOf, e.name)), TxAmount)
  {
    SumByFilterSnoc(init, t, NamedAs(nameOf, e.name), TxAmount);
  }

  /** The transaction's own entry grows by its amount. */
  lemma EntryAdded(init: seq<Transaction>, t: Transaction, nameOf: Transaction -> string, a: real)
    requires a == SumBy(Filter(init, NamedAs(nameOf, nameOf(t))), TxAmount)
    ensures a + t.amount == SumBy(Filter(init + [t], NamedAs(nameOf, nameOf(t))), TxAmount)
  {
    SumByFilterSnoc(init, t, NamedAs(nameOf, nameOf(t)), TxAmount);
  }

  /** A name no earlier transaction has sums to the transaction's amount. */
  lemma EntryNew(init: seq<Transaction>, t: Transaction, nameOf: Transaction -> string)
    requires forall i :: 0 <= i < |init| ==> nameOf(init[i]) != nameOf(t)
    ensures t.amount == SumBy(Filter(init + [t], NamedAs(nameOf, nameOf(t))), TxAmount)
  {
    var p := NamedAs(nameOf, nameOf(t));
    forall i | 0 <= i < |init| ensures !p(init[i]) {
    }
    FilterNone(init, p);
    SumByFilterSnoc(init, t, p, TxAmount);
  }

  /** One entry after a step holds the sum over the transactions with its name. */
  lemma StepEntry(es: seq<Entry>, init: seq<Transaction>, t: Transaction,
                  nameOf: Transaction -> string, colorOf: Transaction -> string, k: nat)
    requires TotalsByName(es, init, nameOf) && DistinctNames(es) && NamesCovered(es, init, nameOf)
    requires k < |TallyStep(es, t, nameOf, colorOf)|
    ensures var r := TallyStep(es, t, nameOf, colorOf);
            r[k].amount == SumBy(Filter(init + [t], NamedAs(nameOf, r[k].name)), TxAmount)
  {
    var r := TallyStep(es, t, nameOf, colorOf);
    match EntryIndex(es, nameOf(t))
    case None =>
      if k < |es| {
        assert r[k] == es[k];
        EntryKept(init, t, nameOf, es[k]);
      } else {
        forall i | 0 <= i < |init| ensures nameOf(init[i]) != nameOf(t) {
          var j := EntryIndex(es, nameOf(init[i])).value;
          assert es[j].name == nameOf(init[i]);
        }
        EntryNew(init, t, nameOf);
      }
    case Some(j) =>
      if k != j {
        assert r[k] == es[k];
        assert es[k].name != es[j].name;
        EntryKept(init, t, nameOf, es[k]);
      } else {
        EntryAdded(init, t, nameOf, es[j].amount);
      }
  }

  lemma StepTotals(es: seq<Entry>, init: seq<Transaction>, t: Transaction,
                   nameOf: Transaction -> string, colorOf: Transaction -> string)
    requires TotalsByName(es, init, nameOf) && DistinctNames(es) && NamesCovered(es, init, nameOf)
    ensures TotalsByName(TallyStep(es, t, nameOf, colorOf), init + [t], nameOf)
  {
    var r := TallyStep(es, t, nameOf, colorOf);
    forall k | 0 <= k < |r| ensures r[k].amount == SumBy(Filter(init + [t], NamedAs(nameOf, r[k].name)), TxAmount) {
      StepEntry(es, init, t, nameOf, colorOf, k);
    }
  }

  /** One entry per name. */
  lemma {:induction false} TallyDistinct(txs: seq<Transaction>, nameOf: Transaction -> string, colorOf: Transaction -> string)
    ensures DistinctNames(Tally(txs, nameOf, colorOf))
  {
    if txs != [] {
      var init, t := txs[..|txs| - 1], txs[|txs| - 1];
      TallyDistinct(init, nameOf, colorOf);
      StepDistinct(Tally(init, nameOf, colorOf), t, nameOf, colorOf);
    }
  }

  /** Every transaction's name has an entry. */
  lemma {:induction false} TallyCovers(txs: seq<Transaction>, nameOf: Transaction -> string, colorOf: Transaction -> string)
    ensures NamesCovered(Tally(txs, nameOf, colorOf), txs, nameOf)
  {
    if txs != [] {
      var init, t := txs[..|txs| - 1], txs[|txs| - 1];
      assert txs == init + [t];
      TallyCovers(init, nameOf, colorOf);
      StepCovers(Tally(init, nameOf, colorOf), init, t, nameOf, colorOf);
    }
  }

  /** Each entry's amount is the sum over the transactions with its name. */
  lemma {:induction false} TallyAmounts(txs: seq<Transaction>, nameOf: Transaction -> string, colorOf: Transaction -> string)
    ensures TotalsByName(Tally(txs, nameOf, colorOf), txs, nameOf)
  {
    if txs != [] {
      var init, t := txs[..|txs| - 1], txs[|txs| - 1];
      assert txs == init + [t];
      TallyAmounts(init, nameOf, colorOf);
      TallyDistinct(init, nameOf, colorOf);
      TallyCovers(init, nameOf, colorOf);
      StepTotals(Tally(init, nameOf, colorOf), init, t, nameOf, colorOf);
    }
  }

  /** The `forEach` that fills the map and the running total. */
  method TallyLoop(txs: seq<Transaction>, nameOf: Transaction -> string, colorOf: Transaction -> string)
    returns (es: seq<Entry>, total: real)
    ensures es == Tally(txs, nameOf, colorOf)
    ensures total == SumBy(txs, TxAmount)
  {
    es := [];
    total := 0.0;
    for k := 0 to |txs|
      invariant es == Tally(txs[..k], nameOf, colorOf)
      invariant total == SumBy(txs[..k], TxAmount)
    {
      var t := txs[k];
      assert txs[..k + 1] == txs[..k] + [t];
      SumBySnoc(txs[..k], t, TxAmount);
      var name := nameOf(t);
      var found := EntryIndex(es, name);
      match found {
        case None =>
          es := es + [Entry(name, t.amount, colorOf(t))];
        case Some(j) =>
          es := es[j := Entry(name, es[j].amount + t.amount, colorOf(t))];
      }
      total := total + t.amount;
    }
    assert txs[..|txs|] == txs;
  }

  // ------------------------------------------------------------------
  // Spending by category

  /** The category a transaction's `category` relation loads, if any. */
  function CategoryOf(categories: seq<Category>, t: Transaction): Option<Category> {
    if t.categoryId.None? then None
    else match FindFirst(categories, (c: Category) => c.id == t.categoryId.value)
      case None => None
      case Some(i) => Some(categories[i])
  }

  /** `t.category?.name || 'Uncategorized'`. */
  function CategoryName(categories: seq<Category>): Transaction -> string {
    (t: Transaction) =>
      match CategoryOf(categories, t)
      case Some(c) => if c.name != "" then c.name else "Uncategorized"
      case None => "Uncategorized"
  }

  /** `t.category?.color || '#9E9E9E'`. */
  function CategoryColor(categories: seq<Category>): Transaction -> string {
    (t: Transaction) =>
      match CategoryOf(categories, t)
      case Some(c) => if c.color.Some? && c.color.value != "" then c.color.value else "#9E9E9E"
      case None => "#9E9E9E"
  }

  /** `{ user_id, type: expense, startDate: Between(start, end) }`. */
  function ExpenseInWindow(u: nat, start: int, end: int): Transaction -> bool {
    (t: Transaction) => t.userId == u && t.txType == Expense && DatedWithin(t, start, end)
  }

  datatype CategorySpending = CategorySpending(category: string, amount: real, percentage: Option<real>, color: string)

  function SpendingAmount(r: CategorySpending): real {
    r.amount
  }

  function SpendingPercentage(r: CategorySpending): real {
    r.percentage.GetOr(0.0)
  }

  function SpendingRow(e: Entry, total: real): CategorySpending {
    CategorySpending(e.name, e.amount, Percent(e.amount, total), e.color)
  }

  function SpendingRows(es: seq<Entry>, total: real): seq<CategorySpending> {
    seq(|es|, k requires 0 <= k < |es| => SpendingRow(es[k], total))
  }

  function SpendingCategory(r: CategorySpending): string {
    r.category
  }

  /** The spending rows of a set of expenses: one per category name, largest first. */
  function SpendingReport(picked: seq<Transaction>, categories: seq<Category>): seq<CategorySpending> {
    SortBy(SpendingRows(Tally(picked, CategoryName(categories), CategoryColor(categories)), SumBy(picked, TxAmount)),
           Descending(SpendingAmount))
  }

  /** getSpendingByCategory: the user's expenses in the window grouped by
      category name, with each group's share of the total, largest first. */
  method GetSpendingByCategory(txs: seq<Transaction>, categories: seq<Category>, u: nat, start: int, end: int)
    returns (r: seq<CategorySpending>)
    ensures r == SpendingReport(Filter(txs, ExpenseInWindow(u, start, end)), categories)
  {
    var picked := Filter(txs, ExpenseInWindow(u, start, end));
    var es, total := TallyLoop(picked, CategoryName(categories), CategoryColor(categories));
    var rows := seq(|es|, k requires 0 <= k < |es| => SpendingRow(es[k], total));
    r := SortBy(rows, Descending(SpendingAmount));
  }

  /** The rows come largest first, one per category name, and each row's
      amount is the sum of that category's expenses. */
  lemma SpendingByCategoryRows(picked: seq<Transaction>, categories: seq<Category>)
    ensures var r := SpendingReport(picked, categories);
            SortedBy(r, Descending(SpendingAmount))
            && (forall i, j :: 0 <= i < j < |r| ==> r[i].category != r[j].category)
            && forall k :: 0 <= k < |r| ==>
                 r[k].amount == SumBy(Filter(picked, NamedAs(CategoryName(categories), r[k].category)), TxAmount)
  {
    var nameOf, colorOf := CategoryName(categories), CategoryColor(categories);
    var es := Tally(picked, nameOf, colorOf);
    var rows := SpendingRows(es, SumBy(picked, TxAmount));
    var r := SortBy(rows, Descending(SpendingAmount));
    DescendingIsTotalPreorder(SpendingAmount);
    SortSorted(rows, Descending(SpendingAmount));
    TallyDistinct(picked, nameOf, colorOf);
    TallyAmounts(picked, nameOf, colorOf);
    KeysStayDistinct(r, rows, SpendingCategory);
    PermutedFrom(r, rows);
    forall k | 0 <= k < |r|
      ensures r[k].amount == SumBy(Filter(picked, NamedAs(nameOf, r[k].category)), TxAmount)
    {
      var j :| 0 <= j < |rows| && rows[j] == r[k];
    }
  }

  /** The amounts add up to the total of the expenses. */
  lemma SpendingByCategoryTotal(picked: seq<Transaction>, categories: seq<Category>)
    ensures SumBy(SpendingReport(picked, categories), SpendingAmount) == SumBy(picked, TxAmount)
  {
    var nameOf, colorOf := CategoryName(categories), CategoryColor(categories);
    var es := Tally(picked, nameOf, colorOf);
    var rows := SpendingRows(es, SumBy(picked, TxAmount));
    TallySum(picked, nameOf, colorOf);
    SumByPointwise(rows, SpendingAmount, es, EntryAmount);
    SortSum(rows, Descending(SpendingAmount), SpendingAmount);
  }

  /** When the total of the expenses is not 0, the percentages add up to 100. */
  lemma SpendingPercentagesTotal(picked: seq<Transaction>, categories: seq<Category>)
    requires SumBy(picked, TxAmount) != 0.0
    ensures SumBy(SpendingReport(picked, categories), SpendingPercentage) == 100.0
  {
    var es := Tally(picked, CategoryName(categories), CategoryColor(categories));
    TallySum(picked, CategoryName(categories), CategoryColor(categories));
    SharesAddUp(es, SumBy(picked, TxAmount));
  }

  /** Rows taken as shares of the nonzero total of their amounts have
      percentages adding up to 100, in any order. */
  lemma SharesAddUp(es: seq<Entry>, total: real)
    requires total != 0.0 && SumBy(es, EntryAmount) == total
    ensures SumBy(SortBy(SpendingRows(es, total), Descending(SpendingAmount)), SpendingPercentage) == 100.0
  {
    RowSharesAddUp(es, total);
    SortSum(SpendingRows(es, total), Descending(SpendingAmount), SpendingPercentage);
  }

  /** Every category with an expense among the picked transactions has a row. */
  lemma SpendingByCategoryCovers(picked: seq<Transaction>, categories: seq<Category>)
    ensures var r := SpendingReport(picked, categories);
            forall i :: 0 <= i < |picked| ==>
              exists k :: 0 <= k < |r| && r[k].category == CategoryName(categories)(picked[i])
  {
    var nameOf, colorOf := CategoryName(categories), CategoryColor(categories);
    var es := Tally(picked, nameOf, colorOf);
    var rows := SpendingRows(es, SumBy(picked, TxAmount));
    var r := SortBy(rows, Descending(SpendingAmount));
    TallyCovers(picked, nameOf, colorOf);
    SortMembers(rows, Descending(SpendingAmount));
    forall i | 0 <= i < |picked| ensures exists k :: 0 <= k < |r| && r[k].category == nameOf(picked[i]) {
      var j := EntryIndex(es, nameOf(picked[i])).value;
      assert rows[j].category == nameOf(picked[i]);
      assert rows[j] in r;
      var k :| 0 <= k < |r| && r[k] == rows[j];
    }
    assert r == SpendingReport(picked, categories);
  }

  lemma RowSharesAddUp(es: seq<Entry>, total: real)
    requires total != 0.0 && SumBy(es, EntryAmount) == total
    ensures SumBy(SpendingRows(es, total), SpendingPercentage) == 100.0
  {
    var rows := SpendingRows(es, total);
    RowsScaled(es, total);
    SumByScaled(rows, SpendingPercentage, es, EntryAmount, 100.0 / total);
    ScaleBack(SumBy(rows, SpendingPercentage), total, total);
  }

  lemma RowsScaled(es: seq<Entry>, total: real)
    requires total != 0.0
    ensures var rows := SpendingRows(es, total);
            |rows| == |es| && forall k :: 0 <= k < |rows| ==> SpendingPercentage(rows[k]) == (100.0 / total) * EntryAmount(es[k])
  {
    var rows := SpendingRows(es, total);
    forall k | 0 <= k < |rows| ensures SpendingPercentage(rows[k]) == (100.0 / total) * EntryAmount(es[k]) {
      assert rows[k] == SpendingRow(es[k], total);
      RowShare(es[k], total);
    }
  }

  lemma RowShare(e: Entry, total: real)
    requires total != 0.0
    ensures SpendingPercentage(SpendingRow(e, total)) == (100.0 / total) * SpendingAmount(SpendingRow(e, total))
  {
  }

  /** A sum scaled by 100 over itself is 100. */
  lemma ScaleBack(scaled: real, sum: real, total: real)
    requires total != 0.0 && sum == total && scaled == (100.0 / total) * sum
    ensures scaled == 100.0
  {
  }


  // ------------------------------------------------------------------
  // Income and expense trends

  datatype Bucket = Bucket(key: string, income: real, expense: real)

  function BucketIndex(bs: seq<Bucket>, key: string): (r: Option<nat>)
    ensures r.Some? ==> r.value < |bs| && bs[r.value].key == key
    ensures r.None? ==> forall j :: 0 <= j < |bs| ==> bs[j].key != key
  {
    FindFirst(bs, (b: Bucket) => b.key == key)
  }

  /** A transaction added to its bucket: income and expense amounts count,
      transfers count toward neither. */
  function AddTo(b: Bucket, t: Transaction): Bucket {
    Bucket(b.key, b.income + (if t.txType == Income then t.amount else 0.0),
           b.expense + (if t.txType == Expense then t.amount else 0.0))
  }

  /** `getDateKey(new Date(t.startDate))`; a missing date reads as day 0. */
  function DateKey(keyOf: int -> string, t: Transaction): string {
    keyOf(t.date.GetOr(0))
  }

  /** One transaction added to its bucket, which is opened at the end when it
      is new (a transfer still opens its bucket). */
  function BucketStep(bs: seq<Bucket>, t: Transaction, keyOf: int -> string): seq<Bucket> {
    match BucketIndex(bs, DateKey(keyOf, t))
    case None => bs + [AddTo(Bucket(DateKey(keyOf, t), 0.0, 0.0), t)]
    case Some(j) => bs[j := AddTo(bs[j], t)]
  }

  /** The buckets after each transaction in turn. */
  function Buckets(txs: seq<Transaction>, keyOf: int -> string): seq<Bucket> {
    if txs == [] then []
    else BucketStep(Buckets(txs[..|txs| - 1], keyOf), txs[|txs| - 1], keyOf)
  }

  function BucketIncome(b: Bucket): real {
    b.income
  }

  function BucketExpense(b: Bucket): real {
    b.expense
  }

  predicate DistinctKeys(bs: seq<Bucket>) {
    forall i, j :: 0 <= i < j < |bs| ==> bs[i].key != bs[j].key
  }

  lemma BucketStepDistinct(bs: seq<Bucket>, t: Transaction, keyOf: int -> string)
    requires DistinctKeys(bs)
    ensures DistinctKeys(BucketStep(bs, t, keyOf))
  {
    var r := BucketStep(bs, t, keyOf);
    match BucketIndex(bs, DateKey(keyOf, t))
    case None =>
      forall i, j | 0 <= i < j < |r| ensures r[i].key != r[j].key {
        assert r[i] == bs[i];
        if j < |bs| {
          assert r[j] == bs[j];
        }
      }
    case Some(k) =>
      forall i, j | 0 <= i < j < |r| ensures r[i].key != r[j].key {
        assert r[i].key == bs[i].key && r[j].key == bs[j].key;
      }
  }

  lemma BucketStepSums(bs: seq<Bucket>, t: Transaction, keyOf: int -> string)
    ensures SumBy(BucketStep(bs, t, keyOf), BucketIncome)
            == SumBy(bs, BucketIncome) + (if t.txType == Income then t.amount else 0.0)
    ensures SumBy(BucketStep(bs, t, keyOf), BucketExpense)
            == SumBy(bs, BucketExpense) + (if t.txType == Expense then t.amount else 0.0)
  {
    match BucketIndex(bs, DateKey(keyOf, t))
    case None =>
      var b := AddTo(Bucket(DateKey(keyOf, t), 0.0, 0.0), t);
      SumBySnoc(bs, b, BucketIncome);
      SumBySnoc(bs, b, BucketExpense);
    case Some(j) =>
      SumByUpdate(bs, j, AddTo(bs[j], t), BucketIncome);
      SumByUpdate(bs, j, AddTo(bs[j], t), BucketExpense);
  }

  /** Buckets have distinct keys and together hold all income and all expense. */
  lemma {:induction false} BucketsTotals(txs: seq<Transaction>, keyOf: int -> string)
    ensures DistinctKeys(Buckets(txs, keyOf))
    ensures SumBy(Buckets(txs, keyOf), BucketIncome) == TypeTotal(txs, Income)
    ensures SumBy(Buckets(txs, keyOf), BucketExpense) == TypeTotal(txs, Expense)
  {
    BucketsDistinct(txs, keyOf);
    BucketsIncome(txs, keyOf);
    BucketsExpense(txs, keyOf);
  }

  lemma {:induction false} BucketsDistinct(txs: seq<Transaction>, keyOf: int -> string)
    ensures DistinctKeys(Buckets(txs, keyOf))
  {
    if txs != [] {
      BucketsDistinct(txs[..|txs| - 1], keyOf);
      BucketStepDistinct(Buckets(txs[..|txs| - 1], keyOf), txs[|txs| - 1], keyOf);
    }
  }

  lemma {:induction false} BucketsIncome(txs: seq<Transaction>, keyOf: int -> string)
    ensures SumBy(Buckets(txs, keyOf), BucketIncome) == TypeTotal(txs, Income)
  {
    if txs != [] {
      BucketsIncome(txs[..|txs| - 1], keyOf);
      TypeTotalLast(txs, Income);
      BucketStepSums(Buckets(txs[..|txs| - 1], keyOf), txs[|txs| - 1], keyOf);
    }
  }

  lemma {:induction false} BucketsExpense(txs: seq<Transaction>, keyOf: int -> string)
    ensures SumBy(Buckets(txs, keyOf), BucketExpense) == TypeTotal(txs, Expense)
  {
    if txs != [] {
      BucketsExpense(txs[..|txs| - 1], keyOf);
      TypeTotalLast(txs, Expense);
      BucketStepSums(Buckets(txs[..|txs| - 1], keyOf), txs[|txs| - 1], keyOf);
    }
  }

  datatype TrendRow = TrendRow(date: string, income: real, expense: real, net: real)

  function TrendDate(r: TrendRow): string {
    r.date
  }

  function TrendIncome(r: TrendRow): real {
    r.income
  }

  function TrendExpense(r: TrendRow): real {
    r.expense
  }

  function TrendRows(bs: seq<Bucket>): seq<TrendRow> {
    seq(|bs|, k requires 0 <= k < |bs| => TrendRow(bs[k].key, bs[k].income, bs[k].expense, bs[k].income - bs[k].expense))
  }

  /** The `forEach` that fills the buckets. */
  method BucketLoop(txs: seq<Transaction>, keyOf: int -> string) returns (bs: seq<Bucket>)
    ensures bs == Buckets(txs, keyOf)
  {
    bs := [];
    for k := 0 to |txs|
      invariant bs == Buckets(txs[..k], keyOf)
    {
      var t := txs[k];
      assert txs[..k + 1][..k] == txs[..k];
      var key := DateKey(keyOf, t);
      var found := BucketIndex(bs, key);
      match found {
        case None =>
          bs := bs + [AddTo(Bucket(key, 0.0, 0.0), t)];
        case Some(j) =>
          bs := bs[j := AddTo(bs[j], t)];
      }
    }
    assert txs[..|txs|] == txs;
  }

  /** The trend rows of a set of transactions, in key order. */
  function TrendReport(picked: seq<Transaction>, keyOf: int -> string): seq<TrendRow> {
    SortBy(TrendRows(Buckets(picked, keyOf)), Ascending(TrendDate))
  }

  /** getIncomeExpenseTrends: the user's transactions in the window grouped
      by date key, sorted by key. */
  method GetIncomeExpenseTrends(txs: seq<Transaction>, u: nat, start: int, end: int, keyOf: int -> string)
    returns (r: seq<TrendRow>)
    ensures r == TrendReport(Filter(txs, InWindow(u, start, end)), keyOf)
  {
    var picked := Filter(txs, InWindow(u, start, end));
    var bs := BucketLoop(picked, keyOf);
    r := SortBy(TrendRows(bs), Ascending(TrendDate));
  }

  /** The trend rows come in strictly increasing key order, and each row's
      net is its income minus its expense. */
  lemma TrendsOrdered(picked: seq<Transaction>, keyOf: int -> string)
    ensures var r := TrendReport(picked, keyOf);
            (forall i, j :: 0 <= i < j < |r| ==> LexLe(r[i].date, r[j].date) && r[i].date != r[j].date)
            && forall k :: 0 <= k < |r| ==> r[k].net == r[k].income - r[k].expense
  {
    var bs := Buckets(picked, keyOf);
    var rows := TrendRows(bs);
    BucketsTotals(picked, keyOf);
    assert forall a :: 0 <= a < |rows| ==> rows[a].date == bs[a].key;
    TrendOrder(rows);
    TrendNets(rows);
    assert TrendReport(picked, keyOf) == SortBy(rows, Ascending(TrendDate));
  }

  /** Sorting rows with distinct dates by date puts them in strictly increasing order. */
  lemma TrendOrder(rows: seq<TrendRow>)
    requires forall a, b :: 0 <= a < b < |rows| ==> rows[a].date != rows[b].date
    ensures var r := SortBy(rows, Ascending(TrendDate));
            forall i, j :: 0 <= i < j < |r| ==> LexLe(r[i].date, r[j].date) && r[i].date != r[j].date
  {
    var r := SortBy(rows, Ascending(TrendDate));
    AscendingIsTotalPreorder(TrendDate);
    SortSorted(rows, Ascending(TrendDate));
    KeysStayDistinct(r, rows, TrendDate);
    forall i, j | 0 <= i < j < |r| ensures LexLe(r[i].date, r[j].date) {
      assert Ascending(TrendDate)(r[i], r[j]);
    }
  }

  /** Sorting keeps every row's net at its income minus its expense. */
  lemma TrendNets(rows: seq<TrendRow>)
    requires forall k :: 0 <= k < |rows| ==> rows[k].net == rows[k].income - rows[k].expense
    ensures var r := SortBy(rows, Ascending(TrendDate));
            forall k :: 0 <= k < |r| ==> r[k].net == r[k].income - r[k].expense
  {
    var r := SortBy(rows, Ascending(TrendDate));
    PermutedFrom(r, rows);
    forall k | 0 <= k < |r| ensures r[k].net == r[k].income - r[k].expense {
      var j :| 0 <= j < |rows| && rows[j] == r[k];
    }
  }

  /** Across the trend rows the incomes and the expenses add up to the
      income and expense totals of the transactions. */
  lemma TrendsTotals(picked: seq<Transaction>, keyOf: int -> string)
    ensures var r := TrendReport(picked, keyOf);
            SumBy(r, TrendIncome) == TypeTotal(picked, Income)
            && SumBy(r, TrendExpense) == TypeTotal(picked, Expense)
  {
    var bs := Buckets(picked, keyOf);
    var rows := TrendRows(bs);
    BucketsTotals(picked, keyOf);
    SumByPointwise(rows, TrendIncome, bs, BucketIncome);
    SumByPointwise(rows, TrendExpense, bs, BucketExpense);
    SortSum(rows, Ascending(TrendDate), TrendIncome);
    SortSum(rows, Ascending(TrendDate), TrendExpense);
  }

  // ------------------------------------------------------------------
  // Monthly comparison

  /** One month of getMonthlyComparison (the month is given by its index, not its name). */
  datatype MonthRow = MonthRow(month: nat, income: real, expense: real, net: real, savingsRate: real)

  function MonthRowFor(txs: seq<Transaction>, u: nat, month: nat, window: (int, int)): MonthRow {
    var picked := Filter(txs, InWindow(u, window.0, window.1));
    var income, expense := TypeTotal(picked, Income), TypeTotal(picked, Expense);
    MonthRow(month, income, expense, income - expense, ShareOf(income - expense, income))
  }

  /** getMonthlyComparison: twelve rows, month m measured over `monthWindow(year, m)`. */
  method GetMonthlyComparison(txs: seq<Transaction>, u: nat, year: int, monthWindow: (int, nat) -> (int, int))
    returns (r: seq<MonthRow>)
    ensures |r| == 12
    ensures forall m :: 0 <= m < 12 ==> r[m] == MonthRowFor(txs, u, m, monthWindow(year, m))
    ensures forall m :: 0 <= m < 12 ==> r[m].month == m && r[m].net == r[m].income - r[m].expense
                                        && (r[m].income <= 0.0 ==> r[m].savingsRate == 0.0)
  {
    r := [];
    for month := 0 to 12
      invariant |r| == month
      invariant forall m :: 0 <= m < month ==> r[m] == MonthRowFor(txs, u, m, monthWindow(year, m))
    {
      var window := monthWindow(year, month);
      var picked := Filter(txs, InWindow(u, window.0, window.1));
      var income := TypeTotal(picked, Income);
      var expense := TypeTotal(picked, Expense);
      r := r + [MonthRow(month, income, expense, income - expense, ShareOf(income - expense, income))];
    }
  }

  // ------------------------------------------------------------------
  // Cash flow and net worth

  datatype CashFlow = CashFlow(opening: real, totalIncome: real, totalExpense: real, net: real, closing: real,
                               operating: real, investing: real)

  /** getCashFlowAnalysis: the closing balance is the user's total balance
      now, and the opening balance is what it was before the window's net flow. */
  function GetCashFlowAnalysis(accounts: seq<Account>, txs: seq<Transaction>, u: nat, start: int, end: int): (c: CashFlow)
    ensures c.closing == Accounts.GetTotalBalance(accounts, u).total
    ensures var picked := Filter(txs, InWindow(u, start, end));
            c.totalIncome == TypeTotal(picked, Income) && c.totalExpense == TypeTotal(picked, Expense)
    ensures c.net == c.totalIncome - c.totalExpense && c.opening + c.net == c.closing
    ensures c.operating == c.net && c.investing == 0.0
  {
    var current := SumBy(Accounts.FindAll(accounts, u, false), Accounts.BalanceOf);
    var picked := Filter(txs, InWindow(u, start, end));
    var income, expense := TypeTotal(picked, Income), TypeTotal(picked, Expense);
    CashFlow(current - (income - expense), income, expense, income - expense, current, income - expense, 0.0)
  }

  datatype NetWorth = NetWorth(assets: real, liabilities: real, netWorth: real, byAccount: seq<(string, AccountType, real)>)

  /** A credit card in debt is a liability of the debt's size; anything else
      is an asset of its balance. */
  function LiabilityPart(a: Account): real {
    if a.accountType == CreditCard && a.currentBalance < 0.0 then -a.currentBalance else 0.0
  }

  function AssetPart(a: Account): real {
    if a.accountType == CreditCard && a.currentBalance < 0.0 then 0.0 else a.currentBalance
  }

  /** The `forEach` of getNetWorth: running asset and liability totals and
      one line per account. */
  method NetWorthOf(active: seq<Account>) returns (w: NetWorth)
    ensures w.assets == SumBy(active, AssetPart) && w.liabilities == SumBy(active, LiabilityPart)
    ensures w.netWorth == w.assets - w.liabilities
    ensures |w.byAccount| == |active|
    ensures forall k :: 0 <= k < |active| ==>
              w.byAccount[k] == (active[k].name, active[k].accountType, active[k].currentBalance)
  {
    var assets, liabilities := 0.0, 0.0;
    var lines: seq<(string, AccountType, real)> := [];
    for k := 0 to |active|
      invariant assets == SumBy(active[..k], AssetPart) && liabilities == SumBy(active[..k], LiabilityPart)
      invariant |lines| == k
      invariant forall j :: 0 <= j < k ==> lines[j] == (active[j].name, active[j].accountType, active[j].currentBalance)
    {
      var acc := active[k];
      assert active[..k + 1] == active[..k] + [acc];
      SumBySnoc(active[..k], acc, AssetPart);
      SumBySnoc(active[..k], acc, LiabilityPart);
      var balance := acc.currentBalance;
      if acc.accountType == CreditCard && balance < 0.0 {
        liabilities := liabilities + Abs(balance);
      } else {
        assets := assets + balance;
      }
      lines := lines + [(acc.name, acc.accountType, balance)];
    }
    assert active[..|active|] == active;
    w := NetWorth(assets, liabilities, assets - liabilities, lines);
  }

  /** getNetWorth over the user's active accounts. */
  method GetNetWorth(accounts: seq<Account>, u: nat) returns (w: NetWorth)
    ensures w.assets == SumBy(Accounts.FindAll(accounts, u, false), AssetPart)
    ensures w.liabilities == SumBy(Accounts.FindAll(accounts, u, false), LiabilityPart)
    ensures w.netWorth == Accounts.GetTotalBalance(accounts, u).total && w.liabilities >= 0.0
    ensures |w.byAccount| == |Accounts.FindAll(accounts, u, false)|
  {
    w := NetWorthOf(Accounts.FindAll(accounts, u, false));
    NetWorthIsTotalBalance(accounts, u);
  }

  /** Net worth is the user's total balance, and liabilities are never negative. */
  lemma NetWorthIsTotalBalance(accounts: seq<Account>, u: nat)
    ensures var active := Accounts.FindAll(accounts, u, false);
            SumBy(active, AssetPart) - SumBy(active, LiabilityPart) == Accounts.GetTotalBalance(accounts, u).total
            && SumBy(active, LiabilityPart) >= 0.0
  {
    var active := Accounts.FindAll(accounts, u, false);
    SumByDifference(active, AssetPart, LiabilityPart, Accounts.BalanceOf);
    SumByNonNegative(active, LiabilityPart);
  }

  // ------------------------------------------------------------------
  // Dashboard

  datatype MonthSummary = MonthSummary(income: real, expense: real, net: real, savingsRate: real)

  datatype BudgetSummary = BudgetSummary(totalBudgeted: real, totalSpent: real, remaining: real, percentageUsed: real)

  datatype TopExpense = TopExpense(category: string, amount: real)

  datatype Dashboard = Dashboard(current: MonthSummary, previous: MonthSummary, budgets: BudgetSummary,
                                 topExpenses: seq<TopExpense>)

  function TopAmount(e: TopExpense): real {
    e.amount
  }

  function TopCategory(e: TopExpense): string {
    e.category
  }

  function BudgetAmount(b: Budget): real {
    b.amount
  }

  /** `t.type === expense && t.category`. */
  function CategorizedExpense(categories: seq<Category>): Transaction -> bool {
    (t: Transaction) => t.txType == Expense && CategoryOf(categories, t).Some?
  }

  /** `t.category.name` (only asked of transactions that have a category). */
  function RawCategoryName(categories: seq<Category>): Transaction -> string {
    (t: Transaction) => match CategoryOf(categories, t) case Some(c) => c.name case None => ""
  }

  function NoColor(t: Transaction): string {
    ""
  }

  function TopRows(es: seq<Entry>): seq<TopExpense> {
    seq(|es|, k requires 0 <= k < |es| => TopExpense(es[k].name, es[k].amount))
  }

  /** The category totals of a month's categorized expenses, largest first. */
  function RankedCategories(monthTxs: seq<Transaction>, categories: seq<Category>): seq<TopExpense> {
    SortBy(TopRows(Tally(Filter(monthTxs, CategorizedExpense(categories)), RawCategoryName(categories), NoColor)),
           Descending(TopAmount))
  }

  function Flow(txs: seq<Transaction>, u: nat, window: (int, int)): MonthSummary {
    var picked := Filter(txs, InWindow(u, window.0, window.1));
    var income, expense := TypeTotal(picked, Income), TypeTotal(picked, Expense);
    MonthSummary(income, expense, income - expense, ShareOf(income - expense, income))
  }

  /** The first five of a ranking (`.slice(0, 5)`). */
  function FirstFive(ranked: seq<TopExpense>): seq<TopExpense> {
    ranked[..if |ranked| < 5 then |ranked| else 5]
  }

  /** The category `forEach` of getDashboardSummary and its sorted first five. */
  method TopExpenses(monthTxs: seq<Transaction>, categories: seq<Category>) returns (top: seq<TopExpense>)
    ensures top == FirstFive(RankedCategories(monthTxs, categories))
  {
    var es, _ := TallyLoop(Filter(monthTxs, CategorizedExpense(categories)), RawCategoryName(categories), NoColor);
    var ranked := SortBy(TopRows(es), Descending(TopAmount));
    top := ranked[..if |ranked| < 5 then |ranked| else 5];
  }

  /** getDashboardSummary: this and last month's flows, the active budgets
      against this month's spending, and the five largest expense categories
      of this month. The previous month's savings rate is not shown by the
      service. */
  method GetDashboardSummary(txs: seq<Transaction>, budgets: seq<Budget>, categories: seq<Category>, u: nat,
                             current: (int, int), previous: (int, int)) returns (d: Dashboard)
    ensures d.current == Flow(txs, u, current)
    ensures d.previous.income == Flow(txs, u, previous).income && d.previous.expense == Flow(txs, u, previous).expense
            && d.previous.net == d.previous.income - d.previous.expense
    ensures d.budgets.totalBudgeted == SumBy(Budgets.ActiveBudgets(budgets, u), BudgetAmount)
    ensures d.budgets.totalSpent == d.current.expense
    ensures d.budgets.remaining == d.budgets.totalBudgeted - d.budgets.totalSpent
    ensures d.budgets.percentageUsed == ShareOf(d.budgets.totalSpent, d.budgets.totalBudgeted)
    ensures d.topExpenses == FirstFive(RankedCategories(Filter(txs, InWindow(u, current.0, current.1)), categories))
  {
    var currentTxs := Filter(txs, InWindow(u, current.0, current.1));
    var now := Flow(txs, u, current);
    var before := Flow(txs, u, previous);
    var totalBudgeted := SumBy(Budgets.ActiveBudgets(budgets, u), BudgetAmount);
    var totalSpent := TypeTotal(currentTxs, Expense);
    var top := TopExpenses(currentTxs, categories);
    d := Dashboard(now, MonthSummary(before.income, before.expense, before.income - before.expense, 0.0),
                   BudgetSummary(totalBudgeted, totalSpent, totalBudgeted - totalSpent, ShareOf(totalSpent, totalBudgeted)),
                   top);
  }

  /** The top expenses are at most five, largest first, and no category
      left out spent more than any category shown. */
  lemma TopExpensesAreLargest(monthTxs: seq<Transaction>, categories: seq<Category>)
    ensures var ranked := RankedCategories(monthTxs, categories);
            var top := FirstFive(ranked);
            |top| <= 5
            && SortedBy(top, Descending(TopAmount))
            && forall k, j :: 0 <= k < |top| && |top| <= j < |ranked| ==> top[k].amount >= ranked[j].amount
  {
    var picked := Filter(monthTxs, CategorizedExpense(categories));
    var rows := TopRows(Tally(picked, RawCategoryName(categories), NoColor));
    var ranked := SortBy(rows, Descending(TopAmount));
    DescendingIsTotalPreorder(TopAmount);
    SortSorted(rows, Descending(TopAmount));
    var n := if |ranked| < 5 then |ranked| else 5;
    forall k, j | 0 <= k < n && n <= j < |ranked| ensures ranked[k].amount >= ranked[j].amount {
      assert Descending(TopAmount)(ranked[k], ranked[j]);
      assert TopAmount(ranked[k]) >= TopAmount(ranked[j]);
    }
  }

  /** Each ranked category appears once with the summed expenses of that category. */
  lemma RankedCategoriesAreTotals(monthTxs: seq<Transaction>, categories: seq<Category>)
    ensures var ranked := RankedCategories(monthTxs, categories);
            var picked := Filter(monthTxs, CategorizedExpense(categories));
            (forall i, j :: 0 <= i < j < |ranked| ==> ranked[i].category != ranked[j].category)
            && forall k :: 0 <= k < |ranked| ==>
                 ranked[k].amount == SumBy(Filter(picked, NamedAs(RawCategoryName(categories), ranked[k].category)), TxAmount)
  {
    var picked := Filter(monthTxs, CategorizedExpense(categories));
    var rows := TopRows(Tally(picked, RawCategoryName(categories), NoColor));
    var ranked := SortBy(rows, Descending(TopAmount));
    TallyDistinct(picked, RawCategoryName(categories), NoColor);
    TallyAmounts(picked, RawCategoryName(categories), NoColor);
    assert forall a, b :: 0 <= a < b < |rows| ==> TopCategory(rows[a]) != TopCategory(rows[b]);
    KeysStayDistinct(ranked, rows, TopCategory);
    PermutedFrom(ranked, rows);
    forall k | 0 <= k < |ranked|
      ensures ranked[k].amount == SumBy(Filter(picked, NamedAs(RawCategoryName(categories), ranked[k].category)), TxAmount)
    {
      var j :| 0 <= j < |rows| && rows[j] == ranked[k];
    }
  }
}
