/**
 * `POST /api/dealer`: a dealer application. Name, phone and details are
 * required; business and city default to `""`; the application starts as
 * PENDING.
 */
module DealerRoute {
  import opened Wrappers
  import opened Js
  import opened Store
  import opened Http

  /** The fields of the JSON body; each may be absent. */
  datatype DealerBody = DealerBody(
    name: Option<string>,
    phone: Option<string>,
    business: Option<string>,
    city: Option<string>,
    details: Option<string>)

  const RequiredMissing := "Required fields missing"
  const SaveFailed := "Failed to save application"

  predicate HasRequiredFields(b: DealerBody) {
    Present(b.name) && Present(b.phone) && Present(b.details)
  }

  /**
   * The handler's decision. `body` is None when the request body is not
   * JSON; `storeFails` says the store throws on the write. Both land in the
   * handler's `catch`.
   */
  function DecideApplication(body: Option<DealerBody>, storeFails: bool): (r: Decision<DealerApplication>)
    ensures body.None? ==> r == Reject(500, SaveFailed)
    ensures body.Some? && !HasRequiredFields(body.value) ==> r == Reject(400, RequiredMissing)
    ensures body.Some? && HasRequiredFields(body.value) && storeFails ==> r == Reject(500, SaveFailed)
    ensures r.Insert? <==> body.Some? && HasRequiredFields(body.value) && !storeFails
    ensures r.Insert? ==>
      var b := body.value;
      && r.data.status == DealerStatus.Pending
      && Some(r.data.name) == b.name && Some(r.data.phone) == b.phone && Some(r.data.details) == b.details
      && (if Present(b.business) then Some(r.data.business) == b.business else r.data.business == "")
      && (if Present(b.city) then Some(r.data.city) == b.city else r.data.city == "")
  {
    if body.None? then Reject(500, SaveFailed)
    else if !HasRequiredFields(body.value) then Reject(400, RequiredMissing)
    else if storeFails then Reject(500, SaveFailed)
    else
      var b := body.value;
      Insert(DealerApplication(
        name := b.name.value,
        phone := b.phone.value,
        business := OrElse(b.business, ""),
        city := OrElse(b.city, ""),
        details := b.details.value,
        status := DealerStatus.Pending))
  }

  /** The handler: decide, then write the application and answer `{ success: true, id }`. */
  method Post(db: Database, body: Option<DealerBody>, storeFails: bool, now: int) returns (resp: Response<Submitted>)
    requires db.Valid()
    modifies db`dealers
    ensures db.Valid()
    ensures match DecideApplication(body, storeFails)
      case Reject(status, error) => resp == Err(status, error) && db.dealers == old(db.dealers)
      case Insert(d) =>
        && resp == Ok(200, Submitted(true, old(db.dealers.nextId)))
        && db.dealers == old(db.dealers).Insert(d, now)
  {
    match DecideApplication(body, storeFails) {
      case Reject(status, error) =>
        resp := Err(status, error);
      case Insert(d) =>
        var row := db.CreateDealerApplication(d, now);
        resp := Ok(200, Submitted(true, row.id));
    }
  }
}
