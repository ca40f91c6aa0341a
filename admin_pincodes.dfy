/**
 * `GET`/`POST /api/admin/pincodes`: the admin pincode list (newest first)
 * and pincode creation.
 */
module AdminPincodesRoute {
  import opened Wrappers
  import opened Js
  import opened Seqs
  import opened Store
  import opened Http

  /** The fields of the JSON body: `code`, `area`, `is_active`. */
  datatype PincodeBody = PincodeBody(code: Option<string>, area: Option<string>, isActive: JsValue)

  const CodeRequired := "Code required"

  function Age(p: Row<Pincode>): int {
    -p.createdAt
  }

  /** Every pincode once, active or not, newest first. */
  function ListPincodes(pincodes: seq<Row<Pincode>>): (r: seq<Row<Pincode>>)
    ensures multiset(r) == multiset(pincodes)
    ensures forall i, j :: 0 <= i < j < |r| ==> r[i].createdAt >= r[j].createdAt
  {
    SortBy(pincodes, Age)
  }

  /** `GET`: 401 without a session, else the listing. */
  function Get(session: Option<Session>, pincodes: seq<Row<Pincode>>): (r: Response<seq<Row<Pincode>>>)
    ensures session.None? ==> r == Unauthorized()
    ensures session.Some? ==>
      && r.Ok? && r.status == 200 && |r.body| == |pincodes|
      && multiset(r.body) == multiset(pincodes)
  {
    if session.None? then Unauthorized() else Ok(200, ListPincodes(pincodes))
  }

  /**
   * `POST`'s decision. A body that is not JSON, and a code some record
   * already has (the unique constraint), make the parser or the store
   * throw outside any `try`: the framework answers 500.
   */
  function DecideCreate(session: Option<Session>, pincodes: seq<Row<Pincode>>, body: Option<PincodeBody>): (r: Decision<Pincode>)
    ensures session.None? ==> r == Reject(401, "Unauthorized")
    ensures session.Some? && body.None? ==> r == Reject(500, "Internal Server Error")
    ensures session.Some? && body.Some? && !Present(body.value.code) ==> r == Reject(400, CodeRequired)
    ensures r.Insert? <==>
      session.Some? && body.Some? && Present(body.value.code) && !CodeTaken(pincodes, body.value.code.value)
    ensures r.Insert? ==>
      var b := body.value;
      && Some(r.data.code) == b.code
      && (if Present(b.area) then r.data.area == b.area else r.data.area == Some(""))
      && (r.data.isActive <==> b.isActive != Bool(false))
  {
    if session.None? then Reject(401, "Unauthorized")
    else if body.None? then Reject(500, "Internal Server Error")
    else
      var b := body.value;
      if !Present(b.code) then Reject(400, CodeRequired)
      else if CodeTaken(pincodes, b.code.value) then Reject(500, "Internal Server Error")
      else Insert(Pincode(b.code.value, Some(OrElse(b.area, "")), b.isActive != Bool(false)))
  }

  /** The `POST` handler: decide, then create the pincode and answer 201 with it. */
  method Post(db: Database, session: Option<Session>, body: Option<PincodeBody>, now: int) returns (resp: Response<Row<Pincode>>)
    requires db.Valid()
    modifies db`pincodes
    ensures db.Valid()
    ensures match DecideCreate(session, old(db.pincodes.rows), body)
      case Reject(status, error) => resp == Err(status, error) && db.pincodes == old(db.pincodes)
      case Insert(p) =>
        && db.pincodes == old(db.pincodes).Insert(p, now)
        && resp == Ok(201, Row(old(db.pincodes.nextId), now, p))
  {
    match DecideCreate(session, db.pincodes.rows, body) {
      case Reject(status, error) =>
        resp := Err(status, error);
      case Insert(p) =>
        var row := db.CreatePincode(p, now);
        resp := Ok(201, row);
    }
  }
}
