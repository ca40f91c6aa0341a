/**
 * `GET /api/check-pincode?code=…`: the public deliverability check. A
 * code is deliverable when its record exists and is active; the answer
 * then carries the record's area label.
 */
module CheckPincodeRoute {
  import opened Wrappers
  import opened Js
  import opened Seqs
  import opened Store

  /** `{ available: true, area }` or `{ available: false }` (no area field). */
  datatype Availability = Available(area: Option<string>) | NotAvailable

  predicate HasCode(p: Row<Pincode>, code: string) {
    p.data.code == code
  }

  /** `findUnique({ where: { code } })`: the record with that code (the first, should codes repeat). */
  function FindByCode(pincodes: seq<Row<Pincode>>, code: string): Option<Row<Pincode>> {
    Find(pincodes, p => HasCode(p, code))
  }

  /**
   * The handler. `code` is the query parameter (None when it is missing);
   * `lookupFails` says the store throws, which the handler's `catch` turns
   * into "not available". The table is only read.
   */
  function CheckPincode(pincodes: seq<Row<Pincode>>, code: Option<string>, lookupFails: bool): (r: Availability)
    ensures !Present(code) ==> r == NotAvailable
    ensures lookupFails ==> r == NotAvailable
    ensures r.Available? <==>
      Present(code) && !lookupFails
      && (exists i :: 0 <= i < |pincodes| && HasCode(pincodes[i], code.value) && pincodes[i].data.isActive
                      && forall j :: 0 <= j < i ==> !HasCode(pincodes[j], code.value))
    ensures r.Available? ==>
      exists i :: 0 <= i < |pincodes| && HasCode(pincodes[i], code.value)
                  && pincodes[i].data.isActive && r.area == pincodes[i].data.area
  {
    if !Present(code) then NotAvailable
    else if lookupFails then NotAvailable
    else match FirstIndex(pincodes, p => HasCode(p, code.value))
      case Some(i) => if pincodes[i].data.isActive then Available(pincodes[i].data.area) else NotAvailable
      case None => NotAvailable
  }

  /**
   * With unique codes, a code is deliverable exactly when an active record
   * with that code exists, and the answer carries that record's area.
   */
  lemma DeliverableIffActiveRecord(pincodes: seq<Row<Pincode>>, code: string, k: nat)
    requires UniqueCodes(pincodes)
    requires code != ""
    requires k < |pincodes| && HasCode(pincodes[k], code)
    ensures CheckPincode(pincodes, Some(code), false) ==
      if pincodes[k].data.isActive then Available(pincodes[k].data.area) else NotAvailable
  {
    var i := FirstIndex(pincodes, p => HasCode(p, code));
    assert i.Some? && i.value <= k;
    assert i.value == k;
  }

  /** Without any record carrying the code, the answer is "not available". */
  lemma UnknownCodeNotAvailable(pincodes: seq<Row<Pincode>>, code: string)
    requires forall i :: 0 <= i < |pincodes| ==> !HasCode(pincodes[i], code)
    ensures CheckPincode(pincodes, Some(code), false) == NotAvailable
  {
  }
}
