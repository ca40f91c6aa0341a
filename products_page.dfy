/**
 * The admin products page: the product list, the add/edit dialog with its
 * image uploader, and deletion after confirmation.
 */
module ProductsPage {
  import opened Wrappers
  import opened Js
  import opened Store
  import opened Http
  import opened Client
  import opened AdminProductsRoute
  import opened UploadRoute
  import opened Storefront

  /** The dialog's fields: text inputs and the "active" checkbox. */
  datatype ProductForm = ProductForm(
    name: string,
    description: string,
    categoryId: string,
    proteinPercent: string,
    size: string,
    price: string,
    imageUrl: string,
    isActive: bool)

  const EmptyForm := ProductForm("", "", "", "", "", "", "", true)

  const NotAnImage := "Please select an image file."
  const UploadFallback := "Upload failed"
  const UploadNetworkError := "Network error during upload."
  const Updated := "Product updated successfully!"
  const Added := "Product added successfully!"
  const SaveFailed := "Failed to save product."
  const NetworkFailed := "Network error."
  const Deleted := "Product deleted."

  /** The uploader's only check before sending: an `image/` type (no size check on this page). */
  predicate UploaderAccepts(f: UploadFile) {
    StartsWith(f.mimeType, "image/")
  }

  /** The uploader never holds back a file the upload route would accept. */
  lemma UploaderPassesWhatServerAccepts(session: Session, f: UploadFile)
    requires Precheck(Some(session), Some(UploadForm(Some(f)))).None?
    ensures UploaderAccepts(f)
  {
    AllowedTypesAreImages(f.mimeType);
  }

  /** The image field of the dialog, with its error line. */
  class ImageUploader {
    var error: string

    constructor ()
      ensures error == ""
    {
      error := "";
    }

    /**
     * `handleFile` followed by `upload`. `response` is the upload route's
     * answer, or None when the request failed. Returns whether a request
     * was sent and the URL handed to the form, if any.
     */
    method HandleFile(f: UploadFile, response: Option<Response<Uploaded>>) returns (sent: bool, url: Option<string>)
      modifies this
      ensures sent <==> UploaderAccepts(f)
      ensures !sent ==> error == NotAnImage && url.None?
      ensures sent && response.None? ==> error == UploadNetworkError && url.None?
      ensures sent && response.Some? && response.value.Err? ==>
        error == (if response.value.error != "" then response.value.error else UploadFallback) && url.None?
      ensures sent && response.Some? && response.value.Ok? ==> error == "" && url == Some(response.value.body.url)
    {
      if !UploaderAccepts(f) {
        error := NotAnImage;
        return false, None;
      }
      error := "";
      sent, url := true, None;
      match response {
        case None =>
          error := UploadNetworkError;
        case Some(Err(_, e)) =>
          error := if e != "" then e else UploadFallback;
        case Some(Ok(_, body)) =>
          url := Some(body.url);
      }
    }
  }

  /** The dialog's fields for an existing product; a falsy price shows as an empty field. */
  function EditForm(p: ProductWithCategory): (f: ProductForm)
    ensures f.name == p.row.data.name && f.isActive == p.row.data.isActive
    ensures f.description == OrElse(p.row.data.description, "")
    ensures f.proteinPercent == OrElse(p.row.data.proteinPercent, "") && f.size == OrElse(p.row.data.size, "")
    ensures f.imageUrl == OrElse(p.row.data.imageUrl, "")
    ensures ParseNumeral(f.categoryId) == Finite(p.row.data.categoryId)
    ensures f.price == "" <==> !PriceTruthy(p.row.data.price)
    ensures f.price != "" ==> ParseNumeral(f.price) == p.row.data.price.value
  {
    var d := p.row.data;
    NumberOfString(d.categoryId);
    var price := if PriceTruthy(d.price) then NumberOfString(d.price.value.value); IntToString(d.price.value.value) else "";
    ProductForm(
      name := d.name,
      description := OrElse(d.description, ""),
      categoryId := IntToString(d.categoryId),
      proteinPercent := OrElse(d.proteinPercent, ""),
      size := OrElse(d.size, ""),
      price := price,
      imageUrl := OrElse(d.imageUrl, ""),
      isActive := d.isActive)
  }

  /**
   * The JSON the dialog sends: every text field as typed, the category id
   * as a number and the price as a number or null. `JSON.stringify`
   * writes a NaN as null.
   */
  function RequestBody(f: ProductForm): (b: ProductBody)
    ensures b.name == Some(f.name) && b.description == Some(f.description)
    ensures b.proteinPercent == Some(f.proteinPercent) && b.size == Some(f.size)
    ensures b.imageUrl == Some(f.imageUrl) && b.isActive == Bool(f.isActive)
    ensures b.categoryId == NumberToJson(ParseNumeral(f.categoryId))
    ensures f.price == "" ==> b.price == Null
    ensures f.price != "" ==> b.price == NumberToJson(ParseNumeral(f.price))
  {
    ProductBody(
      name := Some(f.name),
      description := Some(f.description),
      categoryId := NumberToJson(ParseNumeral(f.categoryId)),
      proteinPercent := Some(f.proteinPercent),
      size := Some(f.size),
      price := if f.price != "" then NumberToJson(ParseNumeral(f.price)) else Null,
      imageUrl := Some(f.imageUrl),
      isActive := Bool(f.isActive))
  }

  /** The price the store ends up with for a price field: a non-zero number, else null (`""`, `"0"` and non-numbers alike). */
  function StoredFormPrice(price: string): (r: Option<JsNumber>)
    ensures r.Some? ==> r.value.Finite? && r.value.value != 0
  {
    if NumberTruthy(ParseNumeral(price)) then Some(ParseNumeral(price)) else None
  }

  /**
   * What the create route does with the dialog's body: 400 when the name
   * is empty or the category id is 0, empty or not a number (a NaN
   * arrives as null), 500 when no category has that id, and otherwise the
   * product exactly as typed, with the price as `StoredFormPrice` says.
   */
  lemma ServerDecisionForForm(session: Session, categories: Table<Category>, f: ProductForm)
    ensures DecideCreate(Some(session), categories, Some(RequestBody(f))) ==
      var id := ParseNumeral(f.categoryId);
      if f.name == "" || !NumberTruthy(id) then Reject(400, NameAndCategoryRequired)
      else if id.value < 0 || !categories.HasId(id.value) then Reject(500, "Internal Server Error")
      else Insert(Product(f.name, Some(f.description), id.value, Some(f.proteinPercent), Some(f.size),
                          StoredFormPrice(f.price), Some(f.imageUrl), f.isActive))
  {
  }

  /**
   * Opening a product and saving it unchanged sends a PUT to that product
   * carrying its own fields, except that absent text fields are sent as
   * `""` and a falsy price (0 or NaN) as null.
   */
  lemma EditFormRoundTrip(p: ProductWithCategory)
    ensures
      var d := p.row.data;
      var req := SaveRequest(Some(p.row.id), RequestBody(EditForm(p)));
      && req.verb == PUT && req.target == Item(p.row.id)
      && req.body == ProductBody(
           name := Some(d.name),
           description := Some(OrElse(d.description, "")),
           categoryId := Num(d.categoryId),
           proteinPercent := Some(OrElse(d.proteinPercent, "")),
           size := Some(OrElse(d.size, "")),
           price := if PriceTruthy(d.price) then Num(d.price.value.value) else Null,
           imageUrl := Some(OrElse(d.imageUrl, "")),
           isActive := Bool(d.isActive))
  {
  }

  /** The id of the product the dialog edits, if any. */
  function EditedId(editing: Option<ProductWithCategory>): Option<nat> {
    if editing.Some? then Some(editing.value.row.id) else None
  }

  /**
   * The two list answers `fetchData` reads, each None when its body did not
   * come back as a list.
   */
  datatype Reload = Reload(productList: Option<seq<ProductWithCategory>>, categoryList: Option<seq<ShopCategory>>)

  class Page {
    var products: seq<ProductWithCategory>
    var categories: seq<ShopCategory>
    var showModal: bool
    var editing: Option<ProductWithCategory>
    var form: ProductForm
    var toast: Option<Toast>

    constructor ()
      ensures products == [] && categories == [] && !showModal && editing.None? && form == EmptyForm && toast.None?
    {
      products, categories, showModal, editing, form, toast := [], [], false, None, EmptyForm, None;
    }

    /**
     * `fetchData`: the products answer is read first and the categories
     * answer after it, so a products body that cannot be read leaves both
     * lists as they were.
     */
    method Refresh(answers: Reload)
      modifies this`products, this`categories
      ensures products == answers.productList.GetOr(old(products))
      ensures answers.productList.Some? ==> categories == answers.categoryList.GetOr(old(categories))
      ensures answers.productList.None? ==> categories == old(categories)
    {
      if answers.productList.Some? {
        products := answers.productList.value;
        if answers.categoryList.Some? {
          categories := answers.categoryList.value;
        }
      }
    }

    /** "Add": a blank, active product. */
    method OpenAdd()
      modifies this`editing, this`form, this`showModal
      ensures editing.None? && form == EmptyForm && showModal
    {
      editing, form, showModal := None, EmptyForm, true;
    }

    /** "Edit": the dialog filled from the product. */
    method OpenEdit(p: ProductWithCategory)
      modifies this`editing, this`form, this`showModal
      ensures editing == Some(p) && form == EditForm(p) && showModal
    {
      editing, form, showModal := Some(p), EditForm(p), true;
    }

    /** The image uploader handed over a URL. */
    method ImageChosen(url: string)
      modifies this`form
      ensures form == old(form).(imageUrl := url)
    {
      form := form.(imageUrl := url);
    }

    /**
     * `handleSubmit`: the request, then the toast; success closes the
     * dialog and reloads both lists.
     */
    method Submit(outcome: FetchOutcome, refreshed: Reload)
      returns (req: Request<ProductBody>)
      modifies this`showModal, this`toast, this`products, this`categories
      ensures req == SaveRequest(EditedId(editing), RequestBody(form))
      ensures Succeeded(outcome) ==>
        && toast == Some(Toast(Success, if editing.Some? then Updated else Added)) && !showModal
        && products == refreshed.productList.GetOr(old(products))
        && categories == (if refreshed.productList.Some? then refreshed.categoryList.GetOr(old(categories)) else old(categories))
      ensures !Succeeded(outcome) ==>
        && toast == Some(Toast(Error, if outcome.NetworkError? then NetworkFailed else SaveFailed))
        && showModal == old(showModal) && products == old(products) && categories == old(categories)
    {
      if Succeeded(outcome) {
        toast := Some(Toast(Success, if editing.Some? then Updated else Added));
        showModal := false;
        Refresh(refreshed);
      } else if outcome.NetworkError? {
        toast := Some(Toast(Error, NetworkFailed));
      } else {
        toast := Some(Toast(Error, SaveFailed));
      }
      req := SaveRequest(EditedId(editing), RequestBody(form));
    }

    /**
     * `handleDelete`: nothing without confirmation; after a successful
     * DELETE, the toast and a reload. A failed DELETE shows nothing.
     */
    method Delete(id: nat, confirmed: bool, outcome: FetchOutcome, refreshed: Reload)
      returns (req: Option<Request<()>>)
      modifies this`toast, this`products, this`categories
      ensures req == (if confirmed then Some(Request(DELETE, Item(id), ())) else None)
      ensures confirmed && Succeeded(outcome) ==>
        && toast == Some(Toast(Success, Deleted))
        && products == refreshed.productList.GetOr(old(products))
        && categories == (if refreshed.productList.Some? then refreshed.categoryList.GetOr(old(categories)) else old(categories))
      ensures !(confirmed && Succeeded(outcome)) ==>
        toast == old(toast) && products == old(products) && categories == old(categories)
    {
      if !confirmed {
        return None;
      }
      if Succeeded(outcome) {
        toast := Some(Toast(Success, Deleted));
        Refresh(refreshed);
      }
      req := Some(Request(DELETE, Item(id), ()));
    }
  }
}
