/**
 * The admin pincodes page: the searchable pincode list with its active
 * count, the add/edit dialog, the active/inactive toggle and deletion.
 */
module PincodesPage {
  import opened Wrappers
  import opened Js
  import opened Seqs
  import opened Store
  import opened Http
  import opened Client
  import opened AdminPincodesRoute
  import StatsRoute

  /** The dialog's fields. */
  datatype PincodeForm = PincodeForm(code: string, area: string, isActive: bool)

  const EmptyForm := PincodeForm("", "", true)

  const Updated := "Pincode updated!"
  const Added := "Pincode added!"
  const SaveFailed := "Failed to save pincode."
  const NetworkFailed := "Network error."
  const Deleted := "Pincode deleted."

  /** The dialog's fields for an existing pincode. */
  function EditForm(p: Row<Pincode>): (f: PincodeForm)
    ensures f.code == p.data.code && f.isActive == p.data.isActive
    ensures f.area == OrElse(p.data.area, "")
  {
    PincodeForm(p.data.code, OrElse(p.data.area, ""), p.data.isActive)
  }

  /** The JSON the dialog sends: the three fields as they stand. */
  function FormBody(f: PincodeForm): (b: PincodeBody)
    ensures b.code == Some(f.code) && b.area == Some(f.area) && b.isActive == Bool(f.isActive)
  {
    PincodeBody(Some(f.code), Some(f.area), Bool(f.isActive))
  }

  /**
   * What the create route does with the dialog's body: 400 for an empty
   * code, 500 for a code already stored, and otherwise exactly the
   * dialog's code, area and active flag.
   */
  lemma ServerStoresForm(session: Session, pincodes: seq<Row<Pincode>>, f: PincodeForm)
    ensures DecideCreate(Some(session), pincodes, Some(FormBody(f))) ==
      if f.code == "" then Reject(400, CodeRequired)
      else if CodeTaken(pincodes, f.code) then Reject(500, "Internal Server Error")
      else Insert(Pincode(f.code, Some(f.area), f.isActive))
  {
  }

  /** Opening a pincode and saving it unchanged sends a PUT to that pincode carrying its own fields, an absent area as `""`. */
  lemma EditFormRoundTrip(p: Row<Pincode>)
    ensures SaveRequest(Some(p.id), FormBody(EditForm(p))) ==
      Request(PUT, Item(p.id), PincodeBody(Some(p.data.code), Some(OrElse(p.data.area, "")), Bool(p.data.isActive)))
  {
  }

  /** A code typed into the field and then saved is stored as exactly its digits. */
  lemma TypedCodeStoredAsDigits(session: Session, pincodes: seq<Row<Pincode>>, typed: string, area: string, active: bool)
    requires DigitsOnly(typed) != "" && !CodeTaken(pincodes, DigitsOnly(typed))
    ensures
      var r := DecideCreate(Some(session), pincodes, Some(FormBody(PincodeForm(DigitsOnly(typed), area, active))));
      r.Insert? && r.data.code == DigitsOnly(typed) && AllDigits(r.data.code)
  {
    ServerStoresForm(session, pincodes, PincodeForm(DigitsOnly(typed), area, active));
  }

  /** The search: the code contains the text, or the area (absent as `""`) contains it ignoring case. */
  predicate Matches(p: Row<Pincode>, search: string) {
    Contains(p.data.code, search) || Contains(ToLower(OrElse(p.data.area, "")), ToLower(search))
  }

  /** The rows the list shows for a search text, in list order. */
  function Filtered(pincodes: seq<Row<Pincode>>, search: string): (r: seq<Row<Pincode>>)
    ensures forall i :: 0 <= i < |r| ==> r[i] in pincodes && Matches(r[i], search)
    ensures forall i :: 0 <= i < |pincodes| && Matches(pincodes[i], search) ==> pincodes[i] in r
  {
    Filter(pincodes, (p: Row<Pincode>) => Matches(p, search))
  }

  /** An empty search shows the whole list. */
  lemma EmptySearchShowsAll(pincodes: seq<Row<Pincode>>)
    ensures Filtered(pincodes, "") == pincodes
  {
    forall i | 0 <= i < |pincodes| ensures Matches(pincodes[i], "") {
      ContainsEmpty(pincodes[i].data.code);
    }
    FilterAll(pincodes, (p: Row<Pincode>) => Matches(p, ""));
  }

  /** Searching for a pincode's own code always finds it. */
  lemma SearchFindsOwnCode(pincodes: seq<Row<Pincode>>, i: nat)
    requires i < |pincodes|
    ensures pincodes[i] in Filtered(pincodes, pincodes[i].data.code)
  {
    assert OccursAt(pincodes[i].data.code, pincodes[i].data.code, 0);
  }

  /** The "N active" figure in the list header. */
  function ActiveCount(pincodes: seq<Row<Pincode>>): (n: nat)
    ensures n <= |pincodes|
  {
    Count(pincodes, StatsRoute.IsActive)
  }

  /** The page's active figure over the listed pincodes equals the dashboard's pincode counter. */
  lemma ActiveCountMatchesDashboard(session: Session, db: Database)
    ensures ActiveCount(ListPincodes(db.pincodes.rows)) == StatsRoute.GetStats(Some(session), db).body.pincodes
  {
    CountPermutation(ListPincodes(db.pincodes.rows), db.pincodes.rows, StatsRoute.IsActive);
    CountIsFilterLength(db.pincodes.rows, StatsRoute.IsActive);
  }

  /** The id of the pincode the dialog edits, if any. */
  function EditedId(editing: Option<Row<Pincode>>): Option<nat> {
    if editing.Some? then Some(editing.value.id) else None
  }

  class Page {
    var pincodes: seq<Row<Pincode>>
    var showModal: bool
    var editing: Option<Row<Pincode>>
    var form: PincodeForm
    var toast: Option<Toast>
    var search: string

    constructor ()
      ensures pincodes == [] && !showModal && editing.None? && form == EmptyForm && toast.None? && search == ""
    {
      pincodes, showModal, editing, form, toast, search := [], false, None, EmptyForm, None, "";
    }

    /** The rows the list shows: `Filtered` applied to the search text. */
    function Shown(): (r: seq<Row<Pincode>>)
      reads this
      ensures forall i :: 0 <= i < |r| ==> r[i] in pincodes && Matches(r[i], search)
      ensures forall i :: 0 <= i < |pincodes| && Matches(pincodes[i], search) ==> pincodes[i] in r
      ensures search == "" ==> r == pincodes
    {
      EmptySearchShowsAll(pincodes);
      Filtered(pincodes, search)
    }

    /** `fetchPincodes`: the list as the pincodes route returned it (None when no list came back). */
    method Refresh(data: Option<seq<Row<Pincode>>>)
      modifies this`pincodes
      ensures pincodes == data.GetOr(old(pincodes))
    {
      if data.Some? {
        pincodes := data.value;
      }
    }

    /** The search box changed. */
    method SetSearch(text: string)
      modifies this`search
      ensures search == text
    {
      search := text;
    }

    /** "Add": a blank, active pincode. */
    method OpenAdd()
      modifies this`editing, this`form, this`showModal
      ensures editing.None? && form == EmptyForm && showModal
    {
      editing, form, showModal := None, EmptyForm, true;
    }

    /** "Edit": the dialog filled from the pincode. */
    method OpenEdit(p: Row<Pincode>)
      modifies this`editing, this`form, this`showModal
      ensures editing == Some(p) && form == EditForm(p) && showModal
    {
      editing, form, showModal := Some(p), EditForm(p), true;
    }

    /** The code field keeps only the digits of what was typed. */
    method EditCode(typed: string)
      modifies this`form
      ensures form == old(form).(code := DigitsOnly(typed))
      ensures AllDigits(form.code) && |form.code| <= |typed|
    {
      form := form.(code := DigitsOnly(typed));
    }

    /** The area field. */
    method EditArea(area: string)
      modifies this`form
      ensures form == old(form).(area := area)
    {
      form := form.(area := area);
    }

    /** The "active" checkbox in the dialog. */
    method EditActive(active: bool)
      modifies this`form
      ensures form == old(form).(isActive := active)
    {
      form := form.(isActive := active);
    }

    /**
     * `handleSubmit`: the request, then the toast; success closes the
     * dialog and reloads the list.
     */
    method Submit(outcome: FetchOutcome, refreshed: Option<seq<Row<Pincode>>>) returns (req: Request<PincodeBody>)
      modifies this`showModal, this`toast, this`pincodes
      ensures req == SaveRequest(EditedId(editing), FormBody(form))
      ensures Succeeded(outcome) ==>
        && toast == Some(Toast(Success, if editing.Some? then Updated else Added)) && !showModal
        && pincodes == refreshed.GetOr(old(pincodes))
      ensures !Succeeded(outcome) ==>
        && toast == Some(Toast(Error, if outcome.NetworkError? then NetworkFailed else SaveFailed))
        && showModal == old(showModal) && pincodes == old(pincodes)
    {
      if Succeeded(outcome) {
        toast := Some(Toast(Success, if editing.Some? then Updated else Added));
        showModal := false;
        Refresh(refreshed);
      } else if outcome.NetworkError? {
        toast := Some(Toast(Error, NetworkFailed));
      } else {
        toast := Some(Toast(Error, SaveFailed));
      }
      req := SaveRequest(EditedId(editing), FormBody(form));
    }

    /** `handleDelete`: nothing without confirmation; after a successful DELETE, the toast and a reload. */
    method Delete(id: nat, confirmed: bool, outcome: FetchOutcome, refreshed: Option<seq<Row<Pincode>>>)
      returns (req: Option<Request<()>>)
      modifies this`toast, this`pincodes
      ensures req == (if confirmed then Some(Request(DELETE, Item(id), ())) else None)
      ensures confirmed && Succeeded(outcome) ==>
        toast == Some(Toast(Success, Deleted)) && pincodes == refreshed.GetOr(old(pincodes))
      ensures !(confirmed && Succeeded(outcome)) ==> toast == old(toast) && pincodes == old(pincodes)
    {
      if !confirmed {
        return None;
      }
      req := Some(Request(DELETE, Item(id), ()));
      if Succeeded(outcome) {
        toast := Some(Toast(Success, Deleted));
        Refresh(refreshed);
      }
    }

    /**
     * `toggleActive`: a PUT of the whole record with the flag flipped,
     * then a reload whatever the answer; a request that never answered
     * stops before the reload.
     */
    method ToggleActive(p: Row<Pincode>, outcome: FetchOutcome, refreshed: Option<seq<Row<Pincode>>>)
      returns (req: Request<Row<Pincode>>)
      modifies this`pincodes
      ensures req.verb == PUT && req.target == Item(p.id)
      ensures req.body.id == p.id && req.body.createdAt == p.createdAt
      ensures req.body.data.code == p.data.code && req.body.data.area == p.data.area
      ensures req.body.data.isActive == !p.data.isActive
      ensures outcome.Responded? ==> pincodes == refreshed.GetOr(old(pincodes))
      ensures outcome.NetworkError? ==> pincodes == old(pincodes)
    {
      req := Request(PUT, Item(p.id), p.(data := p.data.(isActive := !p.data.isActive)));
      if outcome.Responded? {
        Refresh(refreshed);
      }
    }
  }
}
