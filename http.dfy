/** What a server route handler receives and returns. */
module Http {

  /** An admin session as resolved from the request's session token. */
  datatype Session = Session(userId: string)

  /** A JSON response: a status code with either a body or an `{ error }` object. */
  datatype Response<T> = Ok(status: nat, body: T) | Err(status: nat, error: string)

  /** The session guard's answer when there is no session. */
  function Unauthorized<T>(): Response<T> {
    Err(401, "Unauthorized")
  }

  /** The framework's answer when a handler throws outside any `try`. */
  function InternalError<T>(): Response<T> {
    Err(500, "Internal Server Error")
  }

  /** What a create handler decides before it writes: refuse with a status, or insert a record. */
  datatype Decision<T> = Reject(status: nat, error: string) | Insert(data: T)

  /** The `{ success: true, id }` body of the public submission routes. */
  datatype Submitted = Submitted(success: bool, id: nat)
}

/** What a browser page sends and receives. */
module Client {
  import opened Wrappers

  datatype Method = GET | POST | PUT | DELETE

  /** The collection URL of a resource, or the URL of one record. */
  datatype Target = Collection | Item(id: nat)

  /** A `fetch` the page issues. */
  datatype Request<B> = Request(verb: Method, target: Target, body: B)

  /** How a `fetch` ended: a response (`res.ok` and the body's `error` field), or a thrown network error. */
  datatype FetchOutcome = Responded(ok: bool, error: Option<string>) | NetworkError

  predicate Succeeded(o: FetchOutcome) {
    o.Responded? && o.ok
  }

  /**
   * The request a save dialog sends: PUT to the record being edited, or
   * POST to the collection when adding, with the dialog's body either way.
   */
  function SaveRequest<B>(editedId: Option<nat>, body: B): (req: Request<B>)
    ensures req.body == body
    ensures req.verb == PUT <==> editedId.Some?
    ensures editedId.Some? ==> req.target == Item(editedId.value)
    ensures editedId.None? ==> req.verb == POST && req.target == Collection
  {
    match editedId
    case Some(id) => Request(PUT, Item(id), body)
    case None => Request(POST, Collection, body)
  }

  datatype ToastKind = Success | Error

  /** The transient message a page shows after an action (its timed dismissal is not modelled). */
  datatype Toast = Toast(kind: ToastKind, message: string)
}
