/**
 * The relational store the handlers talk to through the ORM, replaced by
 * one in-memory table per entity. A table keeps its rows in insertion order
 * and hands out auto-increment ids; `createdAt` is the clock reading the
 * caller passes in.
 */
module Store {
  import opened Wrappers
  import opened Js

  /** A stored record: its id, its creation time, and the entity's own fields. */
  datatype Row<T> = Row(id: nat, createdAt: int, data: T)

  datatype Table<T> = Table(rows: seq<Row<T>>, nextId: nat) {

    /** Ids are positive, increase in insertion order, and stay below the next id to hand out. */
    predicate Valid() {
      && nextId > 0
      && (forall i :: 0 <= i < |rows| ==> 0 < rows[i].id < nextId)
      && (forall i, j :: 0 <= i < j < |rows| ==> rows[i].id < rows[j].id)
    }

    /** Some row carries this id. */
    predicate HasId(id: int) {
      exists i :: 0 <= i < |rows| && rows[i].id == id
    }

    /** The row with this id, if there is one. */
    function Lookup(id: int): (r: Option<Row<T>>)
      ensures r.Some? <==> HasId(id)
      ensures r.Some? ==> r.value in rows && r.value.id == id
    {
      LookupIn(rows, id)
    }

    /** `create`: append a row under the next id. */
    function Insert(data: T, now: int): (t: Table<T>)
      requires Valid()
      ensures t.Valid()
      ensures t.rows == rows + [Row(nextId, now, data)]
      ensures t.nextId == nextId + 1
      ensures !HasId(nextId)
    {
      Table(rows + [Row(nextId, now, data)], nextId + 1)
    }
  }

  function LookupIn<T>(rows: seq<Row<T>>, id: int): (r: Option<Row<T>>)
    ensures r.Some? <==> exists i :: 0 <= i < |rows| && rows[i].id == id
    ensures r.Some? ==> r.value in rows && r.value.id == id
  {
    if rows == [] then None
    else if rows[0].id == id then Some(rows[0])
    else
      var r := LookupIn(rows[1..], id);
      assert forall i :: 1 <= i < |rows| ==> rows[i] == rows[1..][i - 1];
      r
  }

  /** A fresh table: no rows, ids start at 1. */
  function EmptyTable<T>(): (t: Table<T>)
    ensures t.Valid() && t.rows == []
  {
    Table([], 1)
  }

  /** Inserting never loses a row, so every id present before is present after. */
  lemma InsertKeepsIds<T>(t: Table<T>, data: T, now: int, id: int)
    requires t.Valid() && t.HasId(id)
    ensures t.Insert(data, now).HasId(id)
  {
    var i :| 0 <= i < |t.rows| && t.rows[i].id == id;
    assert t.Insert(data, now).rows[i] == t.rows[i];
  }

  // ---------------------------------------------------------------------------
  // Entities

  datatype Category = Category(name: string, imageUrl: Option<string>, displayOrder: int)

  datatype Product = Product(
    name: string,
    description: Option<string>,
    categoryId: nat,
    proteinPercent: Option<string>,
    size: Option<string>,
    price: Option<JsNumber>,
    imageUrl: Option<string>,
    isActive: bool)

  datatype Pincode = Pincode(code: string, area: Option<string>, isActive: bool)

  /** The life cycle of an order enquiry. */
  datatype OrderStatus = Pending | Contacted | Completed | Cancelled

  datatype OrderInquiry = OrderInquiry(
    customerName: string,
    phone: string,
    productId: nat,
    quantity: string,
    district: string,
    state: string,
    pincode: string,
    address: string,
    notes: string,
    status: OrderStatus)

  /** The life cycle of a dealer application; a separate type from OrderStatus. */
  datatype DealerStatus = Pending | Reviewing | Accepted | Rejected

  datatype DealerApplication = DealerApplication(
    name: string,
    phone: string,
    business: string,
    city: string,
    details: string,
    status: DealerStatus)

  datatype AdminUser = AdminUser(username: string, passwordHash: string)

  /** Every product refers to an existing category (the product's mandatory foreign key). */
  predicate ProductsReferenceCategories(products: seq<Row<Product>>, categories: Table<Category>) {
    forall i :: 0 <= i < |products| ==> categories.HasId(products[i].data.categoryId)
  }

  /** Some stored pincode already carries this code. */
  predicate CodeTaken(pincodes: seq<Row<Pincode>>, code: string) {
    exists i :: 0 <= i < |pincodes| && pincodes[i].data.code == code
  }

  /** No two pincodes share a code (the column's unique constraint). */
  predicate UniqueCodes(pincodes: seq<Row<Pincode>>) {
    forall i, j :: 0 <= i < j < |pincodes| ==> pincodes[i].data.code != pincodes[j].data.code
  }

  /** No two admin users share a username (the column's unique constraint). */
  predicate UniqueUsernames(admins: seq<Row<AdminUser>>) {
    forall i, j :: 0 <= i < j < |admins| ==> admins[i].data.username != admins[j].data.username
  }

  /** Every enquiry refers to an existing product. */
  predicate InquiriesReferenceProducts(inquiries: seq<Row<OrderInquiry>>, products: Table<Product>) {
    forall i :: 0 <= i < |inquiries| ==> products.HasId(inquiries[i].data.productId)
  }

  /** The database: one table per entity. */
  class Database {
    var categories: Table<Category>
    var products: Table<Product>
    var pincodes: Table<Pincode>
    var inquiries: Table<OrderInquiry>
    var dealers: Table<DealerApplication>
    var admins: Table<AdminUser>

    predicate Valid()
      reads this
    {
      && categories.Valid() && products.Valid() && pincodes.Valid()
      && inquiries.Valid() && dealers.Valid() && admins.Valid()
      && ProductsReferenceCategories(products.rows, categories)
      && InquiriesReferenceProducts(inquiries.rows, products)
      && UniqueCodes(pincodes.rows) && UniqueUsernames(admins.rows)
    }

    constructor ()
      ensures Valid()
      ensures categories.rows == [] && products.rows == [] && pincodes.rows == []
      ensures inquiries.rows == [] && dealers.rows == [] && admins.rows == []
    {
      categories, products, pincodes := EmptyTable(), EmptyTable(), EmptyTable();
      inquiries, dealers, admins := EmptyTable(), EmptyTable(), EmptyTable();
    }

    method CreateCategory(c: Category, now: int) returns (row: Row<Category>)
      requires Valid()
      modifies this`categories
      ensures Valid()
      ensures row == Row(old(categories.nextId), now, c)
      ensures categories == old(categories).Insert(c, now)
    {
      row := Row(categories.nextId, now, c);
      forall i | 0 <= i < |products.rows|
        ensures categories.Insert(c, now).HasId(products.rows[i].data.categoryId)
      {
        InsertKeepsIds(categories, c, now, products.rows[i].data.categoryId);
      }
      categories := categories.Insert(c, now);
    }

    method CreateProduct(p: Product, now: int) returns (row: Row<Product>)
      requires Valid()
      requires categories.HasId(p.categoryId)
      modifies this`products
      ensures Valid()
      ensures row == Row(old(products.nextId), now, p)
      ensures products == old(products).Insert(p, now)
    {
      row := Row(products.nextId, now, p);
      forall i | 0 <= i < |inquiries.rows|
        ensures products.Insert(p, now).HasId(inquiries.rows[i].data.productId)
      {
        InsertKeepsIds(products, p, now, inquiries.rows[i].data.productId);
      }
      products := products.Insert(p, now);
    }

    method CreatePincode(p: Pincode, now: int) returns (row: Row<Pincode>)
      requires Valid()
      requires !CodeTaken(pincodes.rows, p.code)
      modifies this`pincodes
      ensures Valid()
      ensures row == Row(old(pincodes.nextId), now, p)
      ensures pincodes == old(pincodes).Insert(p, now)
    {
      row := Row(pincodes.nextId, now, p);
      pincodes := pincodes.Insert(p, now);
    }

    method CreateInquiry(q: OrderInquiry, now: int) returns (row: Row<OrderInquiry>)
      requires Valid()
      requires products.HasId(q.productId)
      modifies this`inquiries
      ensures Valid()
      ensures row == Row(old(inquiries.nextId), now, q)
      ensures inquiries == old(inquiries).Insert(q, now)
    {
      row := Row(inquiries.nextId, now, q);
      inquiries := inquiries.Insert(q, now);
    }

    method CreateDealerApplication(d: DealerApplication, now: int) returns (row: Row<DealerApplication>)
      requires Valid()
      modifies this`dealers
      ensures Valid()
      ensures row == Row(old(dealers.nextId), now, d)
      ensures dealers == old(dealers).Insert(d, now)
    {
      row := Row(dealers.nextId, now, d);
      dealers := dealers.Insert(d, now);
    }
  }
}
