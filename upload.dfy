/**
 * `POST /api/admin/upload`: the checks an image passes before it is sent
 * to the image host, in order: session, presence, type, size. The host's
 * answer is a parameter (None when the upload fails).
 */
module UploadRoute {
  import opened Wrappers
  import opened Js
  import opened Http

  /** The `file` entry of the form: its MIME type and its size in bytes. */
  datatype UploadFile = UploadFile(mimeType: string, size: nat)

  /** The form: None when it cannot be parsed; `file` None when the entry is missing. */
  datatype UploadForm = UploadForm(file: Option<UploadFile>)

  /** What the image host reports for a stored image. */
  datatype Hosted = Hosted(secureUrl: string, publicId: string)

  /** The success body `{ url, filename }`. */
  datatype Uploaded = Uploaded(url: string, filename: string)

  const AllowedTypes: seq<string> := ["image/jpeg", "image/jpg", "image/png", "image/webp", "image/gif"]
  const MaxBytes: nat := 5 * 1024 * 1024

  const NoFile := "No file provided"
  const BadType := "Invalid file type. Only JPEG, PNG, WebP, and GIF are allowed."
  const TooLarge := "File too large. Maximum size is 5MB."
  const UploadFailed := "Upload failed"

  /**
   * The rejection the checks produce, if any, before anything is sent to
   * the host. The first failing check decides.
   */
  function Precheck(session: Option<Session>, form: Option<UploadForm>): (r: Option<Response<Uploaded>>)
    ensures session.None? ==> r == Some(Unauthorized())
    ensures session.Some? && form.None? ==> r == Some(Err(500, UploadFailed))
    ensures session.Some? && form.Some? && form.value.file.None? ==> r == Some(Err(400, NoFile))
    ensures session.Some? && form.Some? && form.value.file.Some? && form.value.file.value.mimeType !in AllowedTypes ==>
      r == Some(Err(400, BadType))
    ensures r.None? <==>
      && session.Some? && form.Some? && form.value.file.Some?
      && form.value.file.value.mimeType in AllowedTypes && form.value.file.value.size <= MaxBytes
    ensures r.Some? && session.Some? && form.Some? && form.value.file.Some? && form.value.file.value.mimeType in AllowedTypes ==>
      r == Some(Err(400, TooLarge))
  {
    if session.None? then Some(Unauthorized())
    else if form.None? then Some(Err(500, UploadFailed))
    else if form.value.file.None? then Some(Err(400, NoFile))
    else if form.value.file.value.mimeType !in AllowedTypes then Some(Err(400, BadType))
    else if form.value.file.value.size > MaxBytes then Some(Err(400, TooLarge))
    else None
  }

  /** The handler: the checks, then the upload; a failed upload is 500 "Upload failed". */
  function Upload(session: Option<Session>, form: Option<UploadForm>, hosted: Option<Hosted>): (r: Response<Uploaded>)
    ensures Precheck(session, form).Some? ==> r == Precheck(session, form).value
    ensures r.Ok? <==> Precheck(session, form).None? && hosted.Some?
    ensures r.Ok? ==> r == Ok(200, Uploaded(hosted.value.secureUrl, hosted.value.publicId))
    ensures Precheck(session, form).None? && hosted.None? ==> r == Err(500, UploadFailed)
  {
    match Precheck(session, form)
    case Some(rejection) => rejection
    case None =>
      match hosted
      case None => Err(500, UploadFailed)
      case Some(h) => Ok(200, Uploaded(h.secureUrl, h.publicId))
  }

  /** Every allowed type is an `image/` type. */
  lemma AllowedTypesAreImages(t: string)
    requires t in AllowedTypes
    ensures StartsWith(t, "image/")
  {
  }

  /** The size limit is inclusive: an allowed image of exactly 5 MiB goes to the host, one byte more does not. */
  lemma SizeLimitInclusive(session: Session, mimeType: string)
    requires mimeType in AllowedTypes
    ensures Precheck(Some(session), Some(UploadForm(Some(UploadFile(mimeType, 5242880))))).None?
    ensures Precheck(Some(session), Some(UploadForm(Some(UploadFile(mimeType, 5242881))))) == Some(Err(400, TooLarge))
  {
  }
}
