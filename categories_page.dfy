/**
 * The admin categories page: the category list, the add/edit dialog with
 * its image uploader, and deletion guarded by the product count.
 */
module CategoriesPage {
  import opened Wrappers
  import opened Js
  import opened Store
  import opened Http
  import opened Client
  import opened AdminCategoriesRoute
  import opened UploadRoute

  /** The dialog's text fields. */
  datatype CategoryForm = CategoryForm(name: string, imageUrl: string, displayOrder: string)

  const EmptyForm := CategoryForm("", "", "0")

  const NotAnImage := "Only image files are allowed."
  const FileTooLarge := "Maximum file size is 5 MB."
  const UploadFallback := "Upload failed."
  const NetworkRetry := "Network error — please try again."
  const SaveFallback := "Failed to save."
  const DeleteFallback := "Delete failed."
  const Deleted := "Category deleted."
  const Updated := "Category updated successfully!"
  const Added := "Category added successfully!"

  /** The uploader's own checks before anything is sent: an `image/` type of at most 5 MiB. */
  function UploaderPrecheck(f: UploadFile): (r: Option<string>)
    ensures r.None? <==> StartsWith(f.mimeType, "image/") && f.size <= MaxBytes
    ensures !StartsWith(f.mimeType, "image/") ==> r == Some(NotAnImage)
    ensures StartsWith(f.mimeType, "image/") && f.size > MaxBytes ==> r == Some(FileTooLarge)
  {
    if !StartsWith(f.mimeType, "image/") then Some(NotAnImage)
    else if f.size > MaxBytes then Some(FileTooLarge)
    else None
  }

  /** The uploader never holds back a file the upload route would accept. */
  lemma UploaderPassesWhatServerAccepts(session: Session, f: UploadFile)
    requires Precheck(Some(session), Some(UploadForm(Some(f)))).None?
    ensures UploaderPrecheck(f).None?
  {
    AllowedTypesAreImages(f.mimeType);
  }

  /** The image field of the dialog, with its error line. */
  class ImageUploader {
    var err: string

    constructor ()
      ensures err == ""
    {
      err := "";
    }

    /**
     * `upload`: the checks, then the request. `response` is the upload
     * route's answer, or None when the request failed. Returns whether a
     * request was sent and the URL handed to the form, if any.
     */
    method Upload(f: UploadFile, response: Option<Response<Uploaded>>) returns (sent: bool, url: Option<string>)
      modifies this
      ensures sent <==> UploaderPrecheck(f).None?
      ensures !sent ==> err == UploaderPrecheck(f).value && url.None?
      ensures sent && response.None? ==> err == NetworkRetry && url.None?
      ensures sent && response.Some? && response.value.Err? ==>
        err == (if response.value.error != "" then response.value.error else UploadFallback) && url.None?
      ensures sent && response.Some? && response.value.Ok? ==> err == "" && url == Some(response.value.body.url)
    {
      err := "";
      var rejection := UploaderPrecheck(f);
      if rejection.Some? {
        err := rejection.value;
        return false, None;
      }
      sent, url := true, None;
      match response {
        case None =>
          err := NetworkRetry;
        case Some(Err(_, e)) =>
          err := if e != "" then e else UploadFallback;
        case Some(Ok(_, body)) =>
          url := Some(body.url);
      }
    }
  }

  /** The dialog's fields for an existing category. */
  function EditForm(c: CategoryWithCount): (f: CategoryForm)
    ensures f.name == c.row.data.name
    ensures f.imageUrl == OrElse(c.row.data.imageUrl, "")
    ensures ParseNumeral(f.displayOrder) == Finite(c.row.data.displayOrder)
  {
    NumberOfString(c.row.data.displayOrder);
    CategoryForm(c.row.data.name, OrElse(c.row.data.imageUrl, ""), IntToString(c.row.data.displayOrder))
  }

  /** The JSON the dialog sends: trimmed name, `""` image as null, display order as a number (0 when not numeric). */
  function RequestBody(f: CategoryForm): (b: CategoryBody)
    ensures b.name == Some(Trim(f.name))
    ensures b.imageUrl.None? <==> f.imageUrl == ""
    ensures b.imageUrl.Some? ==> b.imageUrl.value == f.imageUrl
    ensures ParseNumeral(f.displayOrder).Finite? ==> b.displayOrder == Num(ParseNumeral(f.displayOrder).value)
    ensures ParseNumeral(f.displayOrder).NaN? ==> b.displayOrder == Num(0)
  {
    CategoryBody(Some(Trim(f.name)), OrNull(Some(f.imageUrl)), Num(NumberOrZero(Str(f.displayOrder))))
  }

  /**
   * The create route accepts what the dialog sends exactly when the name
   * is not blank, and stores the trimmed name, the image URL (or null)
   * and the display order the dialog computed.
   */
  lemma ServerStoresDialogBody(session: Session, f: CategoryForm)
    ensures DecideCreate(Some(session), Some(RequestBody(f))) ==
      if AllWhitespace(f.name) then Reject(400, NameRequired)
      else Insert(Category(Trim(f.name), RequestBody(f).imageUrl, NumberOrZero(Str(f.displayOrder))))
  {
    TrimEmptyIffBlank(f.name);
    TrimEmptyIffBlank(Trim(f.name));
    TrimIdempotent(f.name);
  }

  /**
   * Opening an existing category and saving it unchanged sends back its
   * own name, image URL and display order, provided the name is already
   * trimmed and the image URL is not the empty string.
   */
  lemma EditFormRoundTrip(c: CategoryWithCount)
    requires Trim(c.row.data.name) == c.row.data.name
    requires c.row.data.imageUrl != Some("")
    ensures RequestBody(EditForm(c)) == CategoryBody(Some(c.row.data.name), c.row.data.imageUrl, Num(c.row.data.displayOrder))
  {
  }

  /** The add dialog proposes the current number of categories as the display order, and sends it as that number. */
  lemma AddFormSendsListLength(name: string, n: nat)
    ensures RequestBody(CategoryForm(name, "", IntToString(n))).displayOrder == Num(n)
  {
    NumberOfString(n);
  }

  /** The id of the category the dialog edits, if any. */
  function EditedId(editing: Option<CategoryWithCount>): Option<nat> {
    if editing.Some? then Some(editing.value.row.id) else None
  }

  /** The toast that refuses to delete a category that still has products. */
  function StillHasProducts(c: CategoryWithCount): string {
    "\"" + c.row.data.name + "\" mein " + IntToString(c.productCount)
    + " product(s) hain. Pehle unhe hatayein ya doosri category mein move karein."
  }

  class Page {
    var categories: seq<CategoryWithCount>
    var showModal: bool
    var editing: Option<CategoryWithCount>
    var form: CategoryForm
    var toast: Option<Toast>

    constructor ()
      ensures categories == [] && !showModal && editing.None? && form == EmptyForm && toast.None?
    {
      categories, showModal, editing, form, toast := [], false, None, EmptyForm, None;
    }

    /** `fetchCategories`: the list is replaced only by a successful answer (`refreshed` is None otherwise). */
    method Refresh(refreshed: Option<seq<CategoryWithCount>>)
      modifies this`categories
      ensures categories == refreshed.GetOr(old(categories))
    {
      if refreshed.Some? {
        categories := refreshed.value;
      }
    }

    /** "Add": a blank dialog whose display order is the number of listed categories. */
    method OpenAdd()
      modifies this`editing, this`form, this`showModal
      ensures editing.None? && showModal
      ensures form == CategoryForm("", "", IntToString(|categories|))
      ensures ParseNumeral(form.displayOrder) == Finite(|categories|)
    {
      NumberOfString(|categories|);
      editing, form, showModal := None, EmptyForm.(displayOrder := IntToString(|categories|)), true;
    }

    /** "Edit": the dialog filled from the category. */
    method OpenEdit(c: CategoryWithCount)
      modifies this`editing, this`form, this`showModal
      ensures editing == Some(c) && form == EditForm(c) && showModal
    {
      editing, form, showModal := Some(c), EditForm(c), true;
    }

    /** The image uploader handed over a URL. */
    method ImageChosen(url: string)
      modifies this`form
      ensures form == old(form).(imageUrl := url)
    {
      form := form.(imageUrl := url);
    }

    /** The toast, dialog and list after the save request's outcome. */
    method ShowSaveOutcome(outcome: FetchOutcome, refreshed: Option<seq<CategoryWithCount>>)
      modifies this`showModal, this`toast, this`categories
      ensures Succeeded(outcome) ==>
        && toast == Some(Toast(Success, if editing.Some? then Updated else Added))
        && !showModal && categories == refreshed.GetOr(old(categories))
      ensures outcome.Responded? && !outcome.ok ==>
        && toast == Some(Toast(Error, OrElse(outcome.error, SaveFallback)))
        && showModal == old(showModal) && categories == old(categories)
      ensures outcome.NetworkError? ==>
        toast == Some(Toast(Error, NetworkRetry)) && showModal == old(showModal) && categories == old(categories)
    {
      if Succeeded(outcome) {
        toast := Some(Toast(Success, if editing.Some? then Updated else Added));
        showModal := false;
        Refresh(refreshed);
      } else if outcome.NetworkError? {
        toast := Some(Toast(Error, NetworkRetry));
      } else {
        toast := Some(Toast(Error, OrElse(outcome.error, SaveFallback)));
      }
    }

    /**
     * `handleSubmit`: PUT to the edited category or POST to the
     * collection, then the toast; success closes the dialog and
     * refreshes the list. `refreshed` is the follow-up list request's
     * answer (None when it was not successful).
     */
    method Submit(outcome: FetchOutcome, refreshed: Option<seq<CategoryWithCount>>) returns (req: Request<CategoryBody>)
      modifies this`showModal, this`toast, this`categories
      ensures req == SaveRequest(EditedId(editing), RequestBody(form))
      ensures Succeeded(outcome) ==>
        && toast == Some(Toast(Success, if editing.Some? then Updated else Added))
        && !showModal && categories == refreshed.GetOr(old(categories))
      ensures outcome.Responded? && !outcome.ok ==>
        && toast == Some(Toast(Error, OrElse(outcome.error, SaveFallback)))
        && showModal == old(showModal) && categories == old(categories)
      ensures outcome.NetworkError? ==>
        toast == Some(Toast(Error, NetworkRetry)) && showModal == old(showModal) && categories == old(categories)
    {
      ShowSaveOutcome(outcome, refreshed);
      req := SaveRequest(EditedId(editing), RequestBody(form));
    }

    /**
     * `handleDelete`: a category that still has products is refused on
     * the page, with no request; otherwise the admin is asked to confirm
     * and the DELETE is sent. A failed request that never answered leaves
     * everything as it was.
     */
    method Delete(c: CategoryWithCount, confirmed: bool, outcome: FetchOutcome, refreshed: Option<seq<CategoryWithCount>>)
      returns (req: Option<Request<()>>)
      modifies this`toast, this`categories
      ensures c.productCount > 0 ==> req.None? && toast == Some(Toast(Error, StillHasProducts(c))) && categories == old(categories)
      ensures c.productCount == 0 && !confirmed ==> req.None? && toast == old(toast) && categories == old(categories)
      ensures req.Some? <==> c.productCount == 0 && confirmed
      ensures req.Some? ==> req.value == Request(DELETE, Item(c.row.id), ())
      ensures req.Some? && Succeeded(outcome) ==>
        toast == Some(Toast(Success, Deleted)) && categories == refreshed.GetOr(old(categories))
      ensures req.Some? && outcome.Responded? && !outcome.ok ==>
        toast == Some(Toast(Error, OrElse(outcome.error, DeleteFallback))) && categories == old(categories)
      ensures req.Some? && outcome.NetworkError? ==> toast == old(toast) && categories == old(categories)
    {
      if c.productCount > 0 {
        toast := Some(Toast(Error, StillHasProducts(c)));
        return None;
      }
      if !confirmed {
        return None;
      }
      req := Some(Request(DELETE, Item(c.row.id), ()));
      match outcome {
        case NetworkError =>
        case Responded(ok, error) =>
          if !ok {
            toast := Some(Toast(Error, OrElse(error, DeleteFallback)));
          } else {
            toast := Some(Toast(Success, Deleted));
            Refresh(refreshed);
          }
      }
    }
  }
}
