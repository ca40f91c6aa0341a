/**
 * `POST /api/inquire`: a visitor's order enquiry. The handler checks the six
 * required fields, picks a product by name (first name containing the given
 * text, else the first product), fills in defaults and stores the enquiry
 * as PENDING.
 */
module InquireRoute {
  import opened Wrappers
  import opened Js
  import opened Seqs
  import opened Store
  import opened Http

  /** The fields of the JSON body; each may be absent. */
  datatype InquiryBody = InquiryBody(
    customerName: Option<string>,
    phone: Option<string>,
    productName: Option<string>,
    quantity: Option<string>,
    district: Option<string>,
    state: Option<string>,
    pincode: Option<string>,
    address: Option<string>,
    notes: Option<string>)

  const RequiredMissing := "Required fields missing"
  const NoProducts := "No products found in database"
  const SaveFailed := "Failed to save inquiry"
  const QuantityDefault := "Not specified"

  /** All six required fields are truthy. */
  predicate HasRequiredFields(b: InquiryBody) {
    && Present(b.customerName) && Present(b.phone) && Present(b.district)
    && Present(b.state) && Present(b.pincode) && Present(b.address)
  }

  /** The name filter `{ name: { contains: needle } }` (a case-sensitive substring test). */
  predicate NameContains(p: Row<Product>, needle: string) {
    Contains(p.data.name, needle)
  }

  /**
   * The index of the product the enquiry is filed under: the first product
   * whose name contains the requested name (an absent name searches for
   * `""`), or else the first product; none when there are no products.
   */
  function ChosenProductIndex(products: seq<Row<Product>>, productName: Option<string>): (r: Option<nat>)
    ensures r.None? <==> products == []
    ensures r.Some? ==> r.value < |products|
    ensures r.Some? && NameContains(products[r.value], OrElse(productName, "")) ==>
      forall j :: 0 <= j < r.value ==> !NameContains(products[j], OrElse(productName, ""))
    ensures r.Some? && !NameContains(products[r.value], OrElse(productName, "")) ==>
      r.value == 0 && forall j :: 0 <= j < |products| ==> !NameContains(products[j], OrElse(productName, ""))
  {
    var needle := OrElse(productName, "");
    match FirstIndex(products, p => NameContains(p, needle))
    case Some(i) => Some(i)
    case None => if products == [] then None else Some(0)
  }

  /** An absent or empty product name matches every name, so the first product is chosen. */
  lemma AbsentNameChoosesFirst(products: seq<Row<Product>>, productName: Option<string>)
    requires products != [] && !Present(productName)
    ensures ChosenProductIndex(products, productName) == Some(0)
  {
    ContainsEmpty(products[0].data.name);
  }

  /** The record written for a valid body, filed under `productId`. */
  function NewInquiry(b: InquiryBody, productId: nat): OrderInquiry
    requires HasRequiredFields(b)
  {
    OrderInquiry(
      customerName := b.customerName.value,
      phone := b.phone.value,
      productId := productId,
      quantity := OrElse(b.quantity, QuantityDefault),
      district := b.district.value,
      state := b.state.value,
      pincode := b.pincode.value,
      address := b.address.value,
      notes := OrElse(b.notes, ""),
      status := OrderStatus.Pending)
  }

  /**
   * The handler's decision. `body` is None when the request body is not
   * JSON; `storeFails` says the store throws when queried. Both land in
   * the handler's `catch`.
   */
  function DecideInquiry(products: seq<Row<Product>>, body: Option<InquiryBody>, storeFails: bool): (r: Decision<OrderInquiry>)
    ensures body.None? ==> r == Reject(500, SaveFailed)
    ensures body.Some? && !HasRequiredFields(body.value) ==> r == Reject(400, RequiredMissing)
    ensures body.Some? && HasRequiredFields(body.value) && storeFails ==> r == Reject(500, SaveFailed)
    ensures body.Some? && HasRequiredFields(body.value) && !storeFails && products == [] ==> r == Reject(400, NoProducts)
    ensures r.Insert? <==> body.Some? && HasRequiredFields(body.value) && !storeFails && products != []
    ensures r.Insert? ==>
      var b := body.value;
      && r.data.status == OrderStatus.Pending
      && r.data.productId == products[ChosenProductIndex(products, b.productName).value].id
      && Some(r.data.customerName) == b.customerName && Some(r.data.phone) == b.phone
      && Some(r.data.district) == b.district && Some(r.data.state) == b.state
      && Some(r.data.pincode) == b.pincode && Some(r.data.address) == b.address
      && (if Present(b.quantity) then Some(r.data.quantity) == b.quantity else r.data.quantity == QuantityDefault)
      && (if Present(b.notes) then Some(r.data.notes) == b.notes else r.data.notes == "")
  {
    if body.None? then Reject(500, SaveFailed)
    else if !HasRequiredFields(body.value) then Reject(400, RequiredMissing)
    else if storeFails then Reject(500, SaveFailed)
    else match ChosenProductIndex(products, body.value.productName)
      case None => Reject(400, NoProducts)
      case Some(i) => Insert(NewInquiry(body.value, products[i].id))
  }

  /** The handler: decide, then write the enquiry and answer `{ success: true, id }`. */
  method Post(db: Database, body: Option<InquiryBody>, storeFails: bool, now: int) returns (resp: Response<Submitted>)
    requires db.Valid()
    modifies db`inquiries
    ensures db.Valid()
    ensures match DecideInquiry(old(db.products.rows), body, storeFails)
      case Reject(status, error) => resp == Err(status, error) && db.inquiries == old(db.inquiries)
      case Insert(q) =>
        && resp == Ok(200, Submitted(true, old(db.inquiries.nextId)))
        && db.inquiries == old(db.inquiries).Insert(q, now)
  {
    var decision := DecideInquiry(db.products.rows, body, storeFails);
    match decision {
      case Reject(status, error) =>
        resp := Err(status, error);
      case Insert(q) =>
        var i := ChosenProductIndex(db.products.rows, body.value.productName).value;
        assert db.products.rows[i].id == q.productId;
        var row := db.CreateInquiry(q, now);
        resp := Ok(200, Submitted(true, row.id));
    }
  }
}
