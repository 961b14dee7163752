/** CategoriesSeed: the system category list, the seeding of the system
    categories, and the per-user copies of the active system categories.
    Both seeders insert a row only when no matching row exists yet, checking
    against the table as it grows. */
module CategorySeed {
  import opened Common
  import opened Entities
  import Categories

  /** One entry of the system category list. */
  datatype SeedCategory = SeedCategory(name: string, categoryType: CategoryType, color: string, icon: string)

  const IncomeSeeds: seq<SeedCategory> := [
    SeedCategory("Salary", ForIncome, "#4CAF50", "\U{1F4B0}"),
    SeedCategory("Freelance", ForIncome, "#8BC34A", "\U{1F4BC}"),
    SeedCategory("Investment", ForIncome, "#CDDC39", "\U{1F4C8}"),
    SeedCategory("Gift", ForIncome, "#FFC107", "\U{1F381}"),
    SeedCategory("Other Income", ForIncome, "#FF9800", "\U{1F4B5}")
  ]

  const ExpenseSeeds: seq<SeedCategory> := [
    SeedCategory("Food & Dining", ForExpense, "#F44336", "\U{1F354}"),
    SeedCategory("Transportation", ForExpense, "#E91E63", "\U{1F697}"),
    SeedCategory("Shopping", ForExpense, "#9C27B0", "\U{1F6CD}\U{FE0F}"),
    SeedCategory("Entertainment", ForExpense, "#673AB7", "\U{1F3AC}"),
    SeedCategory("Bills & Utilities", ForExpense, "#3F51B5", "\U{1F4A1}"),
    SeedCategory("Healthcare", ForExpense, "#2196F3", "\U{1F3E5}"),
    SeedCategory("Education", ForExpense, "#03A9F4", "\U{1F4DA}"),
    SeedCategory("Travel", ForExpense, "#00BCD4", "\U{2708}\U{FE0F}"),
    SeedCategory("Housing", ForExpense, "#009688", "\U{1F3E0}"),
    SeedCategory("Insurance", ForExpense, "#4CAF50", "\U{1F6E1}\U{FE0F}"),
    SeedCategory("Other Expenses", ForExpense, "#8BC34A", "\U{1F4DD}")
  ]

  /** The system categories, income ones first. */
  const SystemCategories: seq<SeedCategory> := IncomeSeeds + ExpenseSeeds

  function IsIncomeSeed(s: SeedCategory): bool {
    s.categoryType == ForIncome
  }

  function IsExpenseSeed(s: SeedCategory): bool {
    s.categoryType == ForExpense
  }

  /** The list holds 16 categories, 5 for income and 11 for expenses. */
  lemma SystemCategoriesCounts()
    ensures |SystemCategories| == 16
    ensures Count(SystemCategories, IsIncomeSeed) == 5 && Count(SystemCategories, IsExpenseSeed) == 11
  {
    FilterAppend(IncomeSeeds, ExpenseSeeds, IsIncomeSeed);
    FilterAppend(IncomeSeeds, ExpenseSeeds, IsExpenseSeed);
    FilterAll(IncomeSeeds, IsIncomeSeed);
    FilterNone(ExpenseSeeds, IsIncomeSeed);
    FilterNone(IncomeSeeds, IsExpenseSeed);
    FilterAll(ExpenseSeeds, IsExpenseSeed);
  }

  /** No two system categories share a name. */
  lemma SystemNamesDistinct()
    ensures forall i, j :: 0 <= i < j < |SystemCategories| ==> SystemCategories[i].name != SystemCategories[j].name
  {
  }

  // ------------------------------------------------------------------
  // seedSystemCategories

  /** The row saved for a system category: no owner, default and active. */
  function SystemRow(id: nat, s: SeedCategory): Category {
    Category(id, None, s.name, s.categoryType, Some(s.color), Some(s.icon), true, true)
  }

  /** `findOne({ where: { name, isDefault: true } })`. */
  function DefaultIndex(rows: seq<Category>, name: string): (r: Option<nat>)
    ensures r.Some? ==> r.value < |rows| && rows[r.value].isDefault && rows[r.value].name == name
    ensures r.None? ==> forall j :: 0 <= j < |rows| ==> !(rows[j].isDefault && rows[j].name == name)
  {
    FindFirst(rows, (c: Category) => c.isDefault && c.name == name)
  }

  /** The table after the seeding loop has treated each of `todo` in turn. */
  function SeedSystem(rows: seq<Category>, todo: seq<SeedCategory>, nextId: nat): seq<Category>
    decreases |todo|
  {
    if todo == [] then rows
    else if DefaultIndex(rows, todo[0].name).Some? then SeedSystem(rows, todo[1..], nextId)
    else SeedSystem(rows + [SystemRow(nextId, todo[0])], todo[1..], nextId + 1)
  }

  /** One turn of the seeding loop. */
  lemma SeedStep(rows: seq<Category>, todo: seq<SeedCategory>, k: nat, nextId: nat)
    requires k < |todo|
    ensures SeedSystem(rows, todo[k..], nextId)
            == if DefaultIndex(rows, todo[k].name).Some? then SeedSystem(rows, todo[k + 1..], nextId)
               else SeedSystem(rows + [SystemRow(nextId, todo[k])], todo[k + 1..], nextId + 1)
  {
    assert todo[k..][1..] == todo[k + 1..];
  }

  /** seedSystemCategories: saves each system category whose name no
      default category has yet. */
  method SeedSystemCategories(categories: Table<Category>)
    modifies categories
    ensures categories.rows == SeedSystem(old(categories.rows), SystemCategories, old(categories.nextId))
    ensures categories.nextId == old(categories.nextId) + |categories.rows| - |old(categories.rows)|
  {
    SaveMissingDefaults(categories, SystemCategories);
  }

  /** The loop of seedSystemCategories over its list. */
  method SaveMissingDefaults(categories: Table<Category>, list: seq<SeedCategory>)
    modifies categories
    ensures categories.rows == SeedSystem(old(categories.rows), list, old(categories.nextId))
    ensures categories.nextId == old(categories.nextId) + |categories.rows| - |old(categories.rows)|
  {
    for k := 0 to |list|
      invariant SeedSystem(categories.rows, list[k..], categories.nextId)
                == SeedSystem(old(categories.rows), list, old(categories.nextId))
      invariant |old(categories.rows)| <= |categories.rows|
      invariant categories.nextId == old(categories.nextId) + |categories.rows| - |old(categories.rows)|
    {
      var cat := list[k];
      SeedStep(categories.rows, list, k, categories.nextId);
      if DefaultIndex(categories.rows, cat.name).None? {
        categories.Insert(SystemRow(categories.nextId, cat));
      }
    }
  }

  /** Seeding keeps every existing row where it was and only adds system
      rows for names of `todo`. */
  lemma {:induction false} SeedKeepsRows(rows: seq<Category>, todo: seq<SeedCategory>, nextId: nat)
    ensures var r := SeedSystem(rows, todo, nextId);
            |rows| <= |r| && r[..|rows|] == rows
    ensures forall k :: |rows| <= k < |SeedSystem(rows, todo, nextId)| ==>
              SeedSystem(rows, todo, nextId)[k].isDefault && SeedSystem(rows, todo, nextId)[k].userId.None?
              && exists j :: 0 <= j < |todo| && SeedSystem(rows, todo, nextId)[k].name == todo[j].name
    decreases |todo|
  {
    if todo != [] {
      var next := if DefaultIndex(rows, todo[0].name).Some? then rows else rows + [SystemRow(nextId, todo[0])];
      var n' := if DefaultIndex(rows, todo[0].name).Some? then nextId else nextId + 1;
      var r := SeedSystem(rows, todo, nextId);
      assert r == SeedSystem(next, todo[1..], n');
      SeedKeepsRows(next, todo[1..], n');
      assert r[..|rows|] == r[..|next|][..|rows|];
      forall k | |rows| <= k < |r|
        ensures r[k].isDefault && r[k].userId.None? && exists j :: 0 <= j < |todo| && r[k].name == todo[j].name
      {
        if k < |next| {
          assert r[k] == next[k] == SystemRow(nextId, todo[0]);
          assert r[k].name == todo[0].name;
        } else {
          var j :| 0 <= j < |todo[1..]| && r[k].name == todo[1..][j].name;
          assert r[k].name == todo[j + 1].name;
        }
      }
    }
  }

  /** A default category with the name stays findable when rows are added. */
  lemma DefaultStaysFound(rows: seq<Category>, more: seq<Category>, name: string)
    requires DefaultIndex(rows, name).Some?
    ensures DefaultIndex(rows + more, name).Some?
  {
    var i := DefaultIndex(rows, name).value;
    assert (rows + more)[i] == rows[i];
  }

  /** A default category with the name is still there after seeding. */
  lemma SeedKeepsFound(rows: seq<Category>, todo: seq<SeedCategory>, nextId: nat, name: string)
    requires DefaultIndex(rows, name).Some?
    ensures DefaultIndex(SeedSystem(rows, todo, nextId), name).Some?
  {
    var r := SeedSystem(rows, todo, nextId);
    SeedKeepsRows(rows, todo, nextId);
    assert r == rows + r[|rows|..];
    DefaultStaysFound(rows, r[|rows|..], name);
  }

  /** After seeding, every name of `todo` has a default category. */
  lemma {:induction false} SeedCovers(rows: seq<Category>, todo: seq<SeedCategory>, nextId: nat)
    ensures forall j :: 0 <= j < |todo| ==> DefaultIndex(SeedSystem(rows, todo, nextId), todo[j].name).Some?
    decreases |todo|
  {
    if todo != [] {
      var found := DefaultIndex(rows, todo[0].name).Some?;
      var next := if found then rows else rows + [SystemRow(nextId, todo[0])];
      var n' := if found then nextId else nextId + 1;
      assert SeedSystem(rows, todo, nextId) == SeedSystem(next, todo[1..], n');
      assert DefaultIndex(next, todo[0].name).Some? by {
        if !found {
          assert next[|rows|].isDefault && next[|rows|].name == todo[0].name;
        }
      }
      SeedKeepsFound(next, todo[1..], n', todo[0].name);
      SeedCovers(next, todo[1..], n');
      forall j | 0 < j < |todo| ensures DefaultIndex(SeedSystem(next, todo[1..], n'), todo[j].name).Some? {
        assert todo[j] == todo[1..][j - 1];
      }
    }
  }

  /** When every name already has a default category, seeding adds nothing. */
  lemma {:induction false} SeedNothingMissing(rows: seq<Category>, todo: seq<SeedCategory>, nextId: nat)
    requires forall j :: 0 <= j < |todo| ==> DefaultIndex(rows, todo[j].name).Some?
    ensures SeedSystem(rows, todo, nextId) == rows
    decreases |todo|
  {
    if todo != [] {
      assert DefaultIndex(rows, todo[0].name).Some?;
      forall j | 0 <= j < |todo[1..]| ensures DefaultIndex(rows, todo[1..][j].name).Some? {
        assert todo[1..][j] == todo[j + 1];
      }
      SeedNothingMissing(rows, todo[1..], nextId);
    }
  }

  /** Seeding twice leaves the table as seeding once. */
  lemma SeedSystemIdempotent(rows: seq<Category>, n: nat, m: nat)
    ensures SeedSystem(SeedSystem(rows, SystemCategories, n), SystemCategories, m) == SeedSystem(rows, SystemCategories, n)
  {
    SeedCovers(rows, SystemCategories, n);
    SeedNothingMissing(SeedSystem(rows, SystemCategories, n), SystemCategories, m);
  }

  // ------------------------------------------------------------------
  // createDefaultCategoriesForUser

  /** `find({ where: { isDefault: true, isActive: true } })`. */
  function ActiveDefault(c: Category): bool {
    c.isDefault && c.active
  }

  /** The user's copy of a system category: owned, not default, active. */
  function UserCopy(id: nat, u: nat, s: Category): Category {
    Category(id, Some(u), s.name, s.categoryType, s.color, s.icon, false, true)
  }

  /** The table after the copy loop has treated each of `todo` in turn. */
  function CopyDefaults(rows: seq<Category>, todo: seq<Category>, u: nat, nextId: nat): seq<Category>
    decreases |todo|
  {
    if todo == [] then rows
    else if Categories.NameTaken(rows, u, todo[0].name).Some? then CopyDefaults(rows, todo[1..], u, nextId)
    else CopyDefaults(rows + [UserCopy(nextId, u, todo[0])], todo[1..], u, nextId + 1)
  }

  /** createDefaultCategoriesForUser: copies each active system category
      (as listed when the call starts) whose name the user has no category for. */
  method CreateDefaultCategoriesForUser(categories: Table<Category>, u: nat)
    modifies categories
    ensures categories.rows == CopyDefaults(old(categories.rows), Filter(old(categories.rows), ActiveDefault), u, old(categories.nextId))
    ensures categories.nextId == old(categories.nextId) + |categories.rows| - |old(categories.rows)|
  {
    var system := Filter(categories.rows, ActiveDefault);
    for k := 0 to |system|
      invariant CopyDefaults(categories.rows, system[k..], u, categories.nextId)
                == CopyDefaults(old(categories.rows), system, u, old(categories.nextId))
      invariant |old(categories.rows)| <= |categories.rows|
      invariant categories.nextId == old(categories.nextId) + |categories.rows| - |old(categories.rows)|
    {
      var systemCat := system[k];
      assert system[k..][1..] == system[k + 1..];
      if Categories.NameTaken(categories.rows, u, systemCat.name).None? {
        categories.Insert(UserCopy(categories.nextId, u, systemCat));
      }
    }
  }

  /** Copying keeps every existing row where it was and only adds active,
      non-default rows of the user named after entries of `todo`. */
  lemma {:induction false} CopyKeepsRows(rows: seq<Category>, todo: seq<Category>, u: nat, nextId: nat)
    ensures var r := CopyDefaults(rows, todo, u, nextId);
            |rows| <= |r| && r[..|rows|] == rows
    ensures forall k :: |rows| <= k < |CopyDefaults(rows, todo, u, nextId)| ==>
              var c := CopyDefaults(rows, todo, u, nextId)[k];
              !c.isDefault && c.active && c.userId == Some(u)
              && exists j :: 0 <= j < |todo| && c.name == todo[j].name && c.categoryType == todo[j].categoryType
                             && c.color == todo[j].color && c.icon == todo[j].icon
    decreases |todo|
  {
    if todo != [] {
      var next := if Categories.NameTaken(rows, u, todo[0].name).Some? then rows else rows + [UserCopy(nextId, u, todo[0])];
      var n' := if Categories.NameTaken(rows, u, todo[0].name).Some? then nextId else nextId + 1;
      var r := CopyDefaults(rows, todo, u, nextId);
      assert r == CopyDefaults(next, todo[1..], u, n');
      CopyKeepsRows(next, todo[1..], u, n');
      assert r[..|rows|] == r[..|next|][..|rows|];
      forall k | |rows| <= k < |r|
        ensures !r[k].isDefault && r[k].active && r[k].userId == Some(u)
                && exists j :: 0 <= j < |todo| && r[k].name == todo[j].name && r[k].categoryType == todo[j].categoryType
                               && r[k].color == todo[j].color && r[k].icon == todo[j].icon
      {
        if k < |next| {
          assert r[k] == next[k] == UserCopy(nextId, u, todo[0]);
          assert r[k].name == todo[0].name && r[k].categoryType == todo[0].categoryType
                 && r[k].color == todo[0].color && r[k].icon == todo[0].icon;
        } else {
          var j :| 0 <= j < |todo[1..]| && r[k].name == todo[1..][j].name && r[k].categoryType == todo[1..][j].categoryType
                   && r[k].color == todo[1..][j].color && r[k].icon == todo[1..][j].icon;
          assert todo[1..][j] == todo[j + 1];
        }
      }
    }
  }

  lemma UserCategoryStaysFound(rows: seq<Category>, more: seq<Category>, u: nat, name: string)
    requires Categories.NameTaken(rows, u, name).Some?
    ensures Categories.NameTaken(rows + more, u, name).Some?
  {
    var i := Categories.NameTaken(rows, u, name).value;
    assert (rows + more)[i] == rows[i];
  }

  /** A category of the user with the name is still there after copying. */
  lemma CopyKeepsFound(rows: seq<Category>, todo: seq<Category>, u: nat, nextId: nat, name: string)
    requires Categories.NameTaken(rows, u, name).Some?
    ensures Categories.NameTaken(CopyDefaults(rows, todo, u, nextId), u, name).Some?
  {
    var r := CopyDefaults(rows, todo, u, nextId);
    CopyKeepsRows(rows, todo, u, nextId);
    assert r == rows + r[|rows|..];
    UserCategoryStaysFound(rows, r[|rows|..], u, name);
  }

  /** After copying, the user has a category named after every entry of `todo`. */
  lemma {:induction false} CopyCovers(rows: seq<Category>, todo: seq<Category>, u: nat, nextId: nat)
    ensures forall j :: 0 <= j < |todo| ==> Categories.NameTaken(CopyDefaults(rows, todo, u, nextId), u, todo[j].name).Some?
    decreases |todo|
  {
    if todo != [] {
      var found := Categories.NameTaken(rows, u, todo[0].name).Some?;
      var next := if found then rows else rows + [UserCopy(nextId, u, todo[0])];
      var n' := if found then nextId else nextId + 1;
      assert CopyDefaults(rows, todo, u, nextId) == CopyDefaults(next, todo[1..], u, n');
      assert Categories.NameTaken(next, u, todo[0].name).Some? by {
        if !found {
          assert next[|rows|].userId == Some(u) && next[|rows|].name == todo[0].name;
        }
      }
      CopyKeepsFound(next, todo[1..], u, n', todo[0].name);
      CopyCovers(next, todo[1..], u, n');
      forall j | 0 < j < |todo| ensures Categories.NameTaken(CopyDefaults(next, todo[1..], u, n'), u, todo[j].name).Some? {
        assert todo[j] == todo[1..][j - 1];
      }
    }
  }

  /** When the user already has every name, copying adds nothing. */
  lemma {:induction false} CopyNothingMissing(rows: seq<Category>, todo: seq<Category>, u: nat, nextId: nat)
    requires forall j :: 0 <= j < |todo| ==> Categories.NameTaken(rows, u, todo[j].name).Some?
    ensures CopyDefaults(rows, todo, u, nextId) == rows
    decreases |todo|
  {
    if todo != [] {
      assert Categories.NameTaken(rows, u, todo[0].name).Some?;
      forall j | 0 <= j < |todo[1..]| ensures Categories.NameTaken(rows, u, todo[1..][j].name).Some? {
        assert todo[1..][j] == todo[j + 1];
      }
      CopyNothingMissing(rows, todo[1..], u, nextId);
    }
  }

  /** The copies are not default, so the active system categories are the
      same after copying. */
  lemma CopySystemUnchanged(rows: seq<Category>, u: nat, nextId: nat)
    ensures var r := CopyDefaults(rows, Filter(rows, ActiveDefault), u, nextId);
            Filter(r, ActiveDefault) == Filter(rows, ActiveDefault)
  {
    var todo := Filter(rows, ActiveDefault);
    var r := CopyDefaults(rows, todo, u, nextId);
    CopyKeepsRows(rows, todo, u, nextId);
    assert r == rows + r[|rows|..];
    FilterAppend(rows, r[|rows|..], ActiveDefault);
    forall k | 0 <= k < |r[|rows|..]| ensures !ActiveDefault(r[|rows|..][k]) {
      assert r[|rows|..][k] == r[|rows| + k];
    }
    FilterNone(r[|rows|..], ActiveDefault);
    assert Filter(rows, ActiveDefault) + [] == Filter(rows, ActiveDefault);
  }

  /** Copying the defaults for a user twice leaves the table as copying once. */
  lemma CopyDefaultsIdempotent(rows: seq<Category>, u: nat, n: nat, m: nat)
    ensures var r := CopyDefaults(rows, Filter(rows, ActiveDefault), u, n);
            CopyDefaults(r, Filter(r, ActiveDefault), u, m) == r
  {
    var r := CopyDefaults(rows, Filter(rows, ActiveDefault), u, n);
    CopySystemUnchanged(rows, u, n);
    CopyCovers(rows, Filter(rows, ActiveDefault), u, n);
    CopyNothingMissing(r, Filter(r, ActiveDefault), u, m);
  }
}
