/**
 * `GET`/`POST /api/admin/categories`: the admin category list (ascending
 * display order, each category with its number of products) and category
 * creation. Both handlers answer 401 before touching the store when there
 * is no session.
 */
module AdminCategoriesRoute {
  import opened Wrappers
  import opened Js
  import opened Seqs
  import opened Store
  import opened Http

  /** A category as the list returns it: the record and `_count.products`. */
  datatype CategoryWithCount = CategoryWithCount(row: Row<Category>, productCount: nat)

  /** The fields of the JSON body: `name`, `image_url`, `display_order`. */
  datatype CategoryBody = CategoryBody(name: Option<string>, imageUrl: Option<string>, displayOrder: JsValue)

  const NameRequired := "Category name is required"

  predicate InCategory(p: Row<Product>, categoryId: nat) {
    p.data.categoryId == categoryId
  }

  /** The number of products linked to a category. */
  function ProductCount(products: seq<Row<Product>>, categoryId: nat): nat {
    Count(products, p => InCategory(p, categoryId))
  }

  function DisplayOrder(c: Row<Category>): int {
    c.data.displayOrder
  }

  /** The stored record of a listed category. */
  function RecordOf(c: CategoryWithCount): Row<Category> {
    c.row
  }

  /** Every category once, ascending by display order, each with its product count. */
  function ListCategories(categories: seq<Row<Category>>, products: seq<Row<Product>>): (r: seq<CategoryWithCount>)
    ensures multiset(Map(r, RecordOf)) == multiset(categories)
    ensures forall i, j :: 0 <= i < j < |r| ==> r[i].row.data.displayOrder <= r[j].row.data.displayOrder
    ensures forall i :: 0 <= i < |r| ==> r[i].productCount == ProductCount(products, r[i].row.id)
  {
    var sorted := SortBy(categories, DisplayOrder);
    var r := seq(|sorted|, i requires 0 <= i < |sorted| => CategoryWithCount(sorted[i], ProductCount(products, sorted[i].id)));
    assert Map(r, RecordOf) == sorted;
    r
  }

  /** `GET`: 401 without a session, else the listing. */
  function Get(session: Option<Session>, categories: seq<Row<Category>>, products: seq<Row<Product>>): (r: Response<seq<CategoryWithCount>>)
    ensures session.None? ==> r == Unauthorized()
    ensures session.Some? ==>
      && r.Ok? && r.status == 200 && |r.body| == |categories|
      && multiset(Map(r.body, RecordOf)) == multiset(categories)
  {
    if session.None? then Unauthorized() else Ok(200, ListCategories(categories, products))
  }

  /**
   * `POST`'s decision. `body` is None when the body is not JSON, which the
   * handler does not catch (the framework answers 500).
   */
  function DecideCreate(session: Option<Session>, body: Option<CategoryBody>): (r: Decision<Category>)
    ensures session.None? ==> r == Reject(401, "Unauthorized")
    ensures session.Some? && body.None? ==> r == Reject(500, "Internal Server Error")
    ensures r.Insert? <==> session.Some? && body.Some? && body.value.name.Some? && !AllWhitespace(body.value.name.value)
    ensures r.Reject? && session.Some? && body.Some? ==> r == Reject(400, NameRequired)
    ensures r.Insert? ==>
      var b := body.value;
      && r.data.name != "" && r.data.name == Trim(b.name.value)
      && !IsWhitespace(r.data.name[0]) && !IsWhitespace(r.data.name[|r.data.name| - 1])
      && (r.data.imageUrl.None? <==> !Present(b.imageUrl))
      && (r.data.imageUrl.Some? ==> r.data.imageUrl == b.imageUrl)
      && (ToNumber(b.displayOrder).Finite? ==> r.data.displayOrder == ToNumber(b.displayOrder).value)
      && (ToNumber(b.displayOrder).NaN? ==> r.data.displayOrder == 0)
  {
    if session.None? then Reject(401, "Unauthorized")
    else if body.None? then Reject(500, "Internal Server Error")
    else
      var b := body.value;
      if b.name.None? || Trim(b.name.value) == "" then
        TrimEmptyIffBlank(if b.name.Some? then b.name.value else "");
        Reject(400, NameRequired)
      else
        TrimEmptyIffBlank(b.name.value);
        Insert(Category(Trim(b.name.value), OrNull(b.imageUrl), NumberOrZero(b.displayOrder)))
  }

  /** A category id not yet handed out has no products, so a new category is listed with a count of 0. */
  lemma {:induction false} FreshCategoryHasNoProducts(products: seq<Row<Product>>, categories: Table<Category>)
    requires categories.Valid()
    requires ProductsReferenceCategories(products, categories)
    ensures ProductCount(products, categories.nextId) == 0
  {
    var inCat := p => InCategory(p, categories.nextId);
    forall i | 0 <= i < |products| ensures !inCat(products[i]) {
      assert categories.HasId(products[i].data.categoryId);
    }
    CountZero(products, inCat);
  }

  /** The `POST` handler: decide, then create the category and answer 201 with it and its count. */
  method Post(db: Database, session: Option<Session>, body: Option<CategoryBody>, now: int) returns (resp: Response<CategoryWithCount>)
    requires db.Valid()
    modifies db`categories
    ensures db.Valid()
    ensures match DecideCreate(session, body)
      case Reject(status, error) => resp == Err(status, error) && db.categories == old(db.categories)
      case Insert(c) =>
        && db.categories == old(db.categories).Insert(c, now)
        && resp == Ok(201, CategoryWithCount(Row(old(db.categories.nextId), now, c), 0))
        && resp.body.productCount == ProductCount(db.products.rows, resp.body.row.id)
  {
    match DecideCreate(session, body) {
      case Reject(status, error) =>
        resp := Err(status, error);
      case Insert(c) =>
        FreshCategoryHasNoProducts(db.products.rows, db.categories);
        var row := db.CreateCategory(c, now);
        resp := Ok(201, CategoryWithCount(row, ProductCount(db.products.rows, row.id)));
    }
  }
}
