/**
 * `GET`/`POST /api/admin/products`: the admin product list (every product,
 * newest first, each with its category) and product creation with the
 * body's loose values coerced to the stored types.
 */
module AdminProductsRoute {
  import opened Wrappers
  import opened Js
  import opened Seqs
  import opened Store
  import opened Http

  /** A product as the handlers return it: the record with its category included. */
  datatype ProductWithCategory = ProductWithCategory(row: Row<Product>, category: Row<Category>)

  /** The fields of the JSON body. */
  datatype ProductBody = ProductBody(
    name: Option<string>,
    description: Option<string>,
    categoryId: JsValue,
    proteinPercent: Option<string>,
    size: Option<string>,
    price: JsValue,
    imageUrl: Option<string>,
    isActive: JsValue)

  const NameAndCategoryRequired := "Name and category are required"

  /** The newest first ordering key. */
  function Age(p: Row<Product>): int {
    -p.createdAt
  }

  /** The stored record of a listed product. */
  function RecordOf(c: ProductWithCategory): Row<Product> {
    c.row
  }

  /** A product with its category, which the foreign key guarantees exists. */
  function WithCategory(p: Row<Product>, categories: Table<Category>): (r: ProductWithCategory)
    requires categories.HasId(p.data.categoryId)
    ensures r.row == p && r.category in categories.rows && r.category.id == p.data.categoryId
  {
    ProductWithCategory(p, categories.Lookup(p.data.categoryId).value)
  }

  /** Every product once, active or not, newest first, each with its category. */
  function ListProducts(products: seq<Row<Product>>, categories: Table<Category>): (r: seq<ProductWithCategory>)
    requires ProductsReferenceCategories(products, categories)
    ensures multiset(Map(r, RecordOf)) == multiset(products)
    ensures forall i, j :: 0 <= i < j < |r| ==> r[i].row.createdAt >= r[j].row.createdAt
    ensures forall i :: 0 <= i < |r| ==>
      r[i].category in categories.rows && r[i].category.id == r[i].row.data.categoryId
  {
    var sorted := SortBy(products, Age);
    forall i | 0 <= i < |sorted| ensures categories.HasId(sorted[i].data.categoryId) {
      assert sorted[i] in multiset(products);
    }
    var r := seq(|sorted|, i requires 0 <= i < |sorted| && categories.HasId(sorted[i].data.categoryId) =>
      WithCategory(sorted[i], categories));
    assert Map(r, RecordOf) == sorted;
    r
  }

  /** `GET`: 401 without a session, else the listing. */
  function Get(session: Option<Session>, products: seq<Row<Product>>, categories: Table<Category>): (r: Response<seq<ProductWithCategory>>)
    requires ProductsReferenceCategories(products, categories)
    ensures session.None? ==> r == Unauthorized()
    ensures session.Some? ==>
      && r.Ok? && r.status == 200 && |r.body| == |products|
      && multiset(Map(r.body, RecordOf)) == multiset(products)
  {
    if session.None? then Unauthorized() else Ok(200, ListProducts(products, categories))
  }

  /** `price ? Number(price) : null`. */
  function StoredPrice(price: JsValue): (r: Option<JsNumber>)
    ensures r.None? <==> !Truthy(price)
    ensures r.Some? ==> r.value == ToNumber(price)
  {
    if Truthy(price) then Some(ToNumber(price)) else None
  }

  /**
   * `POST`'s decision. A body that is not JSON, a category id that is not
   * a whole number and a category id with no category all make the store
   * or the parser throw outside any `try`, which the framework answers
   * with 500.
   */
  function DecideCreate(session: Option<Session>, categories: Table<Category>, body: Option<ProductBody>): (r: Decision<Product>)
    ensures session.None? ==> r == Reject(401, "Unauthorized")
    ensures session.Some? && body.None? ==> r == Reject(500, "Internal Server Error")
    ensures session.Some? && body.Some? && (!Present(body.value.name) || !Truthy(body.value.categoryId)) ==>
      r == Reject(400, NameAndCategoryRequired)
    ensures r.Insert? <==>
      && session.Some? && body.Some? && Present(body.value.name) && Truthy(body.value.categoryId)
      && ToNumber(body.value.categoryId).Finite? && categories.HasId(ToNumber(body.value.categoryId).value)
    ensures r.Insert? ==>
      var b := body.value;
      && Some(r.data.name) == b.name
      && r.data.categoryId == ToNumber(b.categoryId).value && categories.HasId(r.data.categoryId)
      && r.data.description == b.description && r.data.proteinPercent == b.proteinPercent
      && r.data.size == b.size && r.data.imageUrl == b.imageUrl
      && (r.data.price.None? <==> !Truthy(b.price))
      && (r.data.price.Some? ==> r.data.price.value == ToNumber(b.price))
      && (r.data.isActive <==> b.isActive != Bool(false))
  {
    if session.None? then Reject(401, "Unauthorized")
    else if body.None? then Reject(500, "Internal Server Error")
    else
      var b := body.value;
      if !Present(b.name) || !Truthy(b.categoryId) then Reject(400, NameAndCategoryRequired)
      else match ToNumber(b.categoryId)
        case NaN => Reject(500, "Internal Server Error")
        case Finite(id) =>
          if id < 0 || !categories.HasId(id) then Reject(500, "Internal Server Error")
          else Insert(Product(
            name := b.name.value,
            description := b.description,
            categoryId := id,
            proteinPercent := b.proteinPercent,
            size := b.size,
            price := StoredPrice(b.price),
            imageUrl := b.imageUrl,
            isActive := b.isActive != Bool(false)))
  }

  /** The `POST` handler: decide, then create the product and answer 201 with it and its category. */
  method Post(db: Database, session: Option<Session>, body: Option<ProductBody>, now: int) returns (resp: Response<ProductWithCategory>)
    requires db.Valid()
    modifies db`products
    ensures db.Valid()
    ensures match DecideCreate(session, old(db.categories), body)
      case Reject(status, error) => resp == Err(status, error) && db.products == old(db.products)
      case Insert(p) =>
        && db.products == old(db.products).Insert(p, now)
        && resp.Ok? && resp.status == 201 && resp.body.row == Row(old(db.products.nextId), now, p)
        && resp.body.category in db.categories.rows && resp.body.category.id == p.categoryId
  {
    match DecideCreate(session, db.categories, body) {
      case Reject(status, error) =>
        resp := Err(status, error);
      case Insert(p) =>
        var row := db.CreateProduct(p, now);
        resp := Ok(201, WithCategory(row, db.categories));
    }
  }
}
