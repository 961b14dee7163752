/** CategoriesService: a user's own categories beside the shared system
    (default) categories. Only the user's own, non-default categories can
    be updated, deleted or deactivated. */
module Categories {
  import opened Common
  import opened Entities
  import opened Sorting

  /** What `create` takes from the caller; `active` defaults to true. */
  datatype CategoryInput = CategoryInput(name: string, categoryType: CategoryType, color: Option<string>,
                                         icon: Option<string>, active: Option<bool>)

  /** `findOne({ where: { name, user_id } })`, active or not. */
  function NameTaken(rows: seq<Category>, u: nat, name: string): (r: Option<nat>)
    ensures r.Some? ==> r.value < |rows| && rows[r.value].userId == Some(u) && rows[r.value].name == name
    ensures r.None? ==> forall j :: 0 <= j < |rows| ==> !(rows[j].userId == Some(u) && rows[j].name == name)
  {
    FindFirst(rows, (c: Category) => c.userId == Some(u) && c.name == name)
  }

  /** The row `create` saves: owned by the user and never a default. */
  function NewCategory(id: nat, u: nat, input: CategoryInput): Category {
    Category(id, Some(u), input.name, input.categoryType, input.color, input.icon, false, input.active.GetOr(true))
  }

  /** create: BadRequest when the user already has a category with the name,
      otherwise a new custom category. */
  method Create(categories: Table<Category>, u: nat, input: CategoryInput) returns (r: Result<Category>)
    modifies categories
    ensures NameTaken(old(categories.rows), u, input.name).Some? ==> r == Err(BadRequest) && unchanged(categories)
    ensures NameTaken(old(categories.rows), u, input.name).None? ==>
              r == Ok(NewCategory(old(categories.nextId), u, input))
              && categories.rows == old(categories.rows) + [r.value]
              && categories.nextId == old(categories.nextId) + 1
  {
    if NameTaken(categories.rows, u, input.name).Some? {
      return Err(BadRequest);
    }
    var category := NewCategory(categories.nextId, u, input);
    categories.Insert(category);
    r := Ok(category);
  }

  /** A created category is the user's own, not a default, and blocks a second
      create with the same name. */
  lemma CreatedCategoryBlocksRepeat(rows: seq<Category>, u: nat, input: CategoryInput, id: nat)
    ensures NewCategory(id, u, input).userId == Some(u) && !NewCategory(id, u, input).isDefault
    ensures NameTaken(rows + [NewCategory(id, u, input)], u, input.name).Some?
  {
    var after := rows + [NewCategory(id, u, input)];
    assert after[|rows|] == NewCategory(id, u, input);
  }

  // ------------------------------------------------------------------
  // findAll

  /** The two `where` alternatives: an active default category, or an active
      category of the user; both restricted to `ty` when one is given. */
  function Visible(u: nat, ty: Option<CategoryType>): Category -> bool {
    (c: Category) => c.active && (c.isDefault || c.userId == Some(u)) && (ty.None? || c.categoryType == ty.value)
  }

  /** `order: { isDefault: 'DESC', name: 'ASC' }`. */
  predicate ListedBefore(a: Category, b: Category) {
    (a.isDefault && !b.isDefault) || (a.isDefault == b.isDefault && LexLe(a.name, b.name))
  }

  function ListOrder(): (Category, Category) -> bool {
    (a: Category, b: Category) => ListedBefore(a, b)
  }

  lemma ListOrderIsTotalPreorder()
    ensures TotalPreorder(ListOrder())
  {
    forall a: Category, b: Category ensures ListOrder()(a, b) || ListOrder()(b, a) {
      LexTotal(a.name, b.name);
    }
    forall a: Category, b: Category, c: Category | ListOrder()(a, b) && ListOrder()(b, c)
      ensures ListOrder()(a, c)
    {
      if a.isDefault == b.isDefault == c.isDefault {
        LexTransitive(a.name, b.name, c.name);
      }
    }
  }

  /** findAll: exactly the visible categories, system ones first, each group
      by name. */
  function FindAll(rows: seq<Category>, u: nat, ty: Option<CategoryType>): (r: seq<Category>)
    ensures forall c :: c in r <==> c in rows && c.active && (c.isDefault || c.userId == Some(u))
                                    && (ty.None? || c.categoryType == ty.value)
    ensures forall i, j :: 0 <= i < j < |r| ==> ListedBefore(r[i], r[j])
  {
    ListingMembers(rows, u, ty);
    ListingSorted(Filter(rows, Visible(u, ty)));
    SortBy(Filter(rows, Visible(u, ty)), ListOrder())
  }

  lemma ListingMembers(rows: seq<Category>, u: nat, ty: Option<CategoryType>)
    ensures forall c :: c in SortBy(Filter(rows, Visible(u, ty)), ListOrder()) <==>
              c in rows && c.active && (c.isDefault || c.userId == Some(u)) && (ty.None? || c.categoryType == ty.value)
  {
    var visible := Filter(rows, Visible(u, ty));
    FilterMembers(rows, Visible(u, ty));
    var r := SortBy(visible, ListOrder());
    forall c ensures c in r <==> c in visible {
      assert c in r <==> c in multiset(r);
      assert c in visible <==> c in multiset(visible);
    }
  }

  lemma ListingSorted(s: seq<Category>)
    ensures forall i, j :: 0 <= i < j < |SortBy(s, ListOrder())| ==> ListedBefore(SortBy(s, ListOrder())[i], SortBy(s, ListOrder())[j])
  {
    ListOrderIsTotalPreorder();
    SortSorted(s, ListOrder());
    var r := SortBy(s, ListOrder());
    forall i, j | 0 <= i < j < |r| ensures ListedBefore(r[i], r[j]) {
      assert ListOrder()(r[i], r[j]);
    }
  }

  /** Every system category comes before every custom one in the listing. */
  lemma SystemCategoriesListedFirst(rows: seq<Category>, u: nat, ty: Option<CategoryType>, i: nat, j: nat)
    requires i < |FindAll(rows, u, ty)| && j < |FindAll(rows, u, ty)|
    requires FindAll(rows, u, ty)[i].isDefault && !FindAll(rows, u, ty)[j].isDefault
    ensures i < j
  {
    var r := FindAll(rows, u, ty);
    assert !ListedBefore(r[j], r[i]);
  }

  /** getIncomeCategories and getExpenseCategories split the full listing by type. */
  lemma TypedListingsSplitAll(rows: seq<Category>, u: nat)
    ensures forall c :: c in FindAll(rows, u, None) <==>
              c in FindAll(rows, u, Some(ForIncome)) || c in FindAll(rows, u, Some(ForExpense))
    ensures forall c :: !(c in FindAll(rows, u, Some(ForIncome)) && c in FindAll(rows, u, Some(ForExpense)))
  {
  }

  // ------------------------------------------------------------------
  // findOne

  /** findOne: any category with the id, whoever owns it, or NotFound. */
  function FindOne(rows: seq<Category>, id: nat): (r: Result<Category>)
    ensures r.Ok? ==> r.value in rows && r.value.id == id
    ensures r == Err(NotFound) <==> forall i :: 0 <= i < |rows| ==> rows[i].id != id
  {
    match FindFirst(rows, (c: Category) => c.id == id)
    case None => Err(NotFound)
    case Some(i) => Ok(rows[i])
  }

  // ------------------------------------------------------------------
  // update, remove, deactivate

  /** `findOne({ where: { id, user_id } })`. */
  function CategoryIndex(rows: seq<Category>, u: nat, id: nat): (r: Option<nat>)
    ensures r.Some? ==> r.value < |rows| && rows[r.value].id == id && rows[r.value].userId == Some(u)
    ensures r.None? ==> forall j :: 0 <= j < |rows| ==> !(rows[j].id == id && rows[j].userId == Some(u))
  {
    FindFirst(rows, (c: Category) => c.id == id && c.userId == Some(u))
  }

  /** The checks update, remove and deactivate share: NotFound unless the user
      has a category with the id, BadRequest when it is a system category,
      otherwise its position. */
  function Editable(rows: seq<Category>, u: nat, id: nat): (r: Result<nat>)
    ensures r.Ok? ==> r.value < |rows| && rows[r.value].id == id && rows[r.value].userId == Some(u)
                      && !rows[r.value].isDefault
    ensures r == Err(NotFound) <==> forall j :: 0 <= j < |rows| ==> !(rows[j].id == id && rows[j].userId == Some(u))
    ensures r == Err(BadRequest) <==> CategoryIndex(rows, u, id).Some? && rows[CategoryIndex(rows, u, id).value].isDefault
  {
    match CategoryIndex(rows, u, id)
    case None => Err(NotFound)
    case Some(i) => if rows[i].isDefault then Err(BadRequest) else Ok(i)
  }

  /** The fields an update may carry; a missing field keeps its value. */
  datatype CategoryPatch = CategoryPatch(name: Option<string>, categoryType: Option<CategoryType>,
                                         color: Option<string>, icon: Option<string>,
                                         isDefault: Option<bool>, active: Option<bool>)

  /** `Object.assign(category, updateDto)`. */
  function ApplyPatch(c: Category, p: CategoryPatch): (r: Category)
    ensures r.id == c.id && r.userId == c.userId
    ensures p.name.Some? ==> r.name == p.name.value
    ensures p.name.None? ==> r.name == c.name
    ensures p.active.None? ==> r.active == c.active
  {
    Category(c.id, c.userId, p.name.GetOr(c.name), p.categoryType.GetOr(c.categoryType),
             if p.color.Some? then p.color else c.color, if p.icon.Some? then p.icon else c.icon,
             p.isDefault.GetOr(c.isDefault), p.active.GetOr(c.active))
  }

  /** An update without fields changes nothing, and applying a patch twice
      is applying it once. */
  lemma PatchLaws(c: Category, p: CategoryPatch)
    ensures ApplyPatch(c, CategoryPatch(None, None, None, None, None, None)) == c
    ensures ApplyPatch(ApplyPatch(c, p), p) == ApplyPatch(c, p)
  {
  }

  /** update: the user's own custom category with the patch applied. */
  method Update(categories: Table<Category>, u: nat, id: nat, patch: CategoryPatch) returns (r: Result<Category>)
    modifies categories
    ensures match Editable(old(categories.rows), u, id)
            case Err(e) => r == Err(e) && unchanged(categories)
            case Ok(i) => r == Ok(ApplyPatch(old(categories.rows[i]), patch))
                          && categories.rows == old(categories.rows)[i := r.value]
                          && categories.nextId == old(categories.nextId)
  {
    var found := Editable(categories.rows, u, id);
    if found.Err? {
      return Err(found.error);
    }
    var i := found.value;
    var category := ApplyPatch(categories.rows[i], patch);
    categories.Save(i, category);
    r := Ok(category);
  }

  /** `category.transactions.length > 0`. */
  function UsedBy(transactions: seq<Transaction>, id: nat): (r: bool)
    ensures r <==> exists j :: 0 <= j < |transactions| && transactions[j].categoryId == Some(id)
  {
    FindFirst(transactions, (t: Transaction) => t.categoryId == Some(id)).Some?
  }

  /** remove: NotFound, BadRequest for a system category, BadRequest while a
      transaction refers to it (deactivate it instead), otherwise deleted. */
  method Remove(categories: Table<Category>, transactions: seq<Transaction>, u: nat, id: nat) returns (s: Status)
    modifies categories
    ensures match Editable(old(categories.rows), u, id)
            case Err(e) => s == Failed(e) && unchanged(categories)
            case Ok(i) =>
              if UsedBy(transactions, id) then s == Failed(BadRequest) && unchanged(categories)
              else s == Done && categories.rows == old(categories.rows)[..i] + old(categories.rows)[i + 1..]
                   && categories.nextId == old(categories.nextId)
  {
    var found := Editable(categories.rows, u, id);
    if found.Err? {
      return Failed(found.error);
    }
    if UsedBy(transactions, id) {
      return Failed(BadRequest);
    }
    categories.Remove(found.value);
    s := Done;
  }

  /** deactivate: NotFound, BadRequest for a system category, otherwise the
      category is saved inactive. */
  method Deactivate(categories: Table<Category>, u: nat, id: nat) returns (r: Result<Category>)
    modifies categories
    ensures match Editable(old(categories.rows), u, id)
            case Err(e) => r == Err(e) && unchanged(categories)
            case Ok(i) => r == Ok(old(categories.rows[i]).(active := false))
                          && categories.rows == old(categories.rows)[i := r.value]
                          && categories.nextId == old(categories.nextId)
  {
    var found := Editable(categories.rows, u, id);
    if found.Err? {
      return Err(found.error);
    }
    var i := found.value;
    var category := categories.rows[i].(active := false);
    categories.Save(i, category);
    r := Ok(category);
  }

  /** A deactivated category leaves every listing, and deactivating never
      brings another category into one. */
  lemma DeactivatedIsHidden(rows: seq<Category>, i: nat, u: nat, ty: Option<CategoryType>)
    requires i < |rows|
    ensures var after := rows[i := rows[i].(active := false)];
            rows[i].(active := false) !in FindAll(after, u, ty)
            && forall c :: c in FindAll(after, u, ty) ==> c in FindAll(rows, u, ty)
  {
    var after := rows[i := rows[i].(active := false)];
    forall c | c in FindAll(after, u, ty) ensures c in FindAll(rows, u, ty) {
      var j :| 0 <= j < |after| && after[j] == c;
      assert j != i;
      assert rows[j] == c;
    }
  }

  /** update, remove and deactivate leave every system category in place:
      the row they touch is a custom one, and rows before it keep their
      positions. */
  lemma SystemCategoriesUntouched(rows: seq<Category>, u: nat, id: nat, c: Category, k: nat)
    requires Editable(rows, u, id).Ok?
    requires k < |rows| && rows[k].isDefault
    ensures var i := Editable(rows, u, id).value;
            k != i && rows[i := c][k] == rows[k]
            && (k < i ==> (rows[..i] + rows[i + 1..])[k] == rows[k])
            && (k > i ==> (rows[..i] + rows[i + 1..])[k - 1] == rows[k])
  {
  }
}
