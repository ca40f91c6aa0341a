/**
 * The two-step order dialog of the public pages. Step 1 asks for a PIN
 * code and checks deliverability; step 2 collects the customer's details
 * and hands a summary of the order to WhatsApp, then closes.
 */
module OrderModal {
  import opened Wrappers
  import opened Js
  import opened Seqs
  import opened Storefront
  import opened CheckPincodeRoute

  /** The step-2 fields. */
  datatype OrderForm = OrderForm(name: string, phone: string, quantity: string, address: string)

  const EmptyForm := OrderForm("", "", "", "")

  const InvalidPincode := "Please enter a valid 6-digit PIN code."
  const LookupFailed := "Error checking pincode. Please try again."
  /** The text the dialog looks for to offer the WhatsApp transport link. */
  const NotAvailableMarker := "not available"
  const OrderBase := "https://wa.me/917865055431?text="
  const LineBreak := "%0A"
  const Rule := "-------------------"

  /** The message for a PIN code the store does not deliver to. */
  function NotAvailableMessage(pincode: string): (m: string)
    ensures Contains(m, NotAvailableMarker)
  {
    var before := "Sorry, delivery is currently ";
    var after := " for PIN code " + pincode + ". Please contact us on WhatsApp directly for bulk transportation queries.";
    ContainsInfix(before, NotAvailableMarker, after);
    before + NotAvailableMarker + after
  }

  /** The two other error messages never offer the transport link. */
  lemma OtherErrorsLackMarker()
    ensures !Contains(InvalidPincode, NotAvailableMarker)
    ensures !Contains(LookupFailed, NotAvailableMarker)
    ensures !Contains("", NotAvailableMarker)
  {
    assert NotAvailableMarker[10] == 'b';
    assert forall k :: 0 <= k < |InvalidPincode| ==> InvalidPincode[k] != 'b';
    MissingCharNotContained(InvalidPincode, NotAvailableMarker, 10);
    assert NotAvailableMarker[5] == 'v';
    assert forall k :: 0 <= k < |LookupFailed| ==> LookupFailed[k] != 'v';
    MissingCharNotContained(LookupFailed, NotAvailableMarker, 5);
    MissingCharNotContained("", NotAvailableMarker, 0);
  }

  function SizeLine(p: ShopProduct): string {
    if Present(p.size) then "*Size:* " + p.size.value else ""
  }

  function ProteinLine(p: ShopProduct): string {
    if Present(p.proteinPercent) then "*Protein:* " + p.proteinPercent.value else ""
  }

  function PriceLine(p: ShopProduct): string {
    if IntTruthy(p.price) then "*Price:* ₹" + IntToString(p.price.value) + "/kg" else ""
  }

  /** The lines of the summary before empty ones are dropped. */
  function SummaryLines(p: ShopProduct, f: OrderForm, pincode: string, areaName: string): seq<string> {
    [ "*New Order Request*",
      Rule,
      "*Product:* " + p.name,
      SizeLine(p),
      ProteinLine(p),
      PriceLine(p),
      "*Quantity Needed:* " + f.quantity,
      Rule,
      "*Customer Details*",
      "*Name:* " + f.name,
      "*Phone:* " + f.phone,
      "*Address:* " + f.address,
      "*Pincode:* " + pincode + " (" + areaName + ")" ]
  }

  predicate NonEmpty(line: string) {
    line != ""
  }

  /** The order summary: the non-empty lines joined by an encoded line break. */
  function Summary(p: ShopProduct, f: OrderForm, pincode: string, areaName: string): string {
    Join(Filter(SummaryLines(p, f, pincode, areaName), NonEmpty), LineBreak)
  }

  /** The lines that must always be in the summary, in order. */
  function RequiredHead(p: ShopProduct): seq<string> {
    ["*New Order Request*", Rule, "*Product:* " + p.name]
  }

  function RequiredTail(f: OrderForm, pincode: string, areaName: string): seq<string> {
    [ "*Quantity Needed:* " + f.quantity, Rule, "*Customer Details*", "*Name:* " + f.name,
      "*Phone:* " + f.phone, "*Address:* " + f.address, "*Pincode:* " + pincode + " (" + areaName + ")" ]
  }

  /** `[line]` for a non-empty line, nothing otherwise. */
  function IfSet(shown: bool, line: string): seq<string> {
    if shown then [line] else []
  }

  /** Dropping empty lines from required lines around three optional ones. */
  lemma FilterAroundOptional(head: seq<string>, a: string, b: string, c: string, tail: seq<string>)
    requires forall i :: 0 <= i < |head| ==> head[i] != ""
    requires forall i :: 0 <= i < |tail| ==> tail[i] != ""
    ensures Filter(head + [a] + [b] + [c] + tail, NonEmpty) ==
      head + IfSet(a != "", a) + IfSet(b != "", b) + IfSet(c != "", c) + tail
  {
    FilterAppend(head + [a] + [b] + [c], tail, NonEmpty);
    FilterAppend(head + [a] + [b], [c], NonEmpty);
    FilterAppend(head + [a], [b], NonEmpty);
    FilterAppend(head, [a], NonEmpty);
    FilterAll(head, NonEmpty);
    FilterAll(tail, NonEmpty);
    FilterSingle(a, NonEmpty);
    FilterSingle(b, NonEmpty);
    FilterSingle(c, NonEmpty);
  }

  /**
   * The kept lines are the product and customer lines, always, with the
   * size, protein and price lines between them exactly when those fields
   * are truthy.
   */
  lemma KeptLines(p: ShopProduct, f: OrderForm, pincode: string, areaName: string)
    ensures Filter(SummaryLines(p, f, pincode, areaName), NonEmpty) ==
      RequiredHead(p)
      + IfSet(Present(p.size), SizeLine(p))
      + IfSet(Present(p.proteinPercent), ProteinLine(p))
      + IfSet(IntTruthy(p.price), PriceLine(p))
      + RequiredTail(f, pincode, areaName)
  {
    var head, tail := RequiredHead(p), RequiredTail(f, pincode, areaName);
    assert SummaryLines(p, f, pincode, areaName) == head + [SizeLine(p)] + [ProteinLine(p)] + [PriceLine(p)] + tail;
    FilterAroundOptional(head, SizeLine(p), ProteinLine(p), PriceLine(p), tail);
  }

  /** The summary names the product, quantity, customer, phone, address and PIN code with its area. */
  lemma SummaryHasRequiredLines(p: ShopProduct, f: OrderForm, pincode: string, areaName: string)
    ensures forall line :: line in RequiredHead(p) + RequiredTail(f, pincode, areaName) ==>
      Contains(Summary(p, f, pincode, areaName), line)
  {
    var kept := Filter(SummaryLines(p, f, pincode, areaName), NonEmpty);
    KeptLines(p, f, pincode, areaName);
    forall line | line in RequiredHead(p) + RequiredTail(f, pincode, areaName)
      ensures Contains(Summary(p, f, pincode, areaName), line)
    {
      assert line in kept;
      var i :| 0 <= i < |kept| && kept[i] == line;
      JoinContains(kept, LineBreak, i);
    }
  }

  /** The dialog's state. */
  class Dialog {
    var isOpen: bool
    var product: Option<ShopProduct>
    var step: nat
    var pincode: string
    var pincodeError: string
    var areaName: string
    var form: OrderForm

    /** The step is 1 or 2, the PIN code is all digits, and step 2 is reached only with a checked 6-digit code. */
    predicate Valid()
      reads this
    {
      && (step == 1 || step == 2)
      && AllDigits(pincode)
      && (step == 2 ==> |pincode| == 6 && areaName != "")
    }

    /** The dialog renders nothing while closed or without a product. */
    predicate Renders()
      reads this
    {
      isOpen && product.Some?
    }

    /** The WhatsApp transport link is offered while the error reports an undeliverable code. */
    predicate OffersTransportLink()
      reads this
    {
      Contains(pincodeError, NotAvailableMarker)
    }

    constructor ()
      ensures Valid() && !isOpen && product.None?
      ensures step == 1 && pincode == "" && pincodeError == "" && areaName == "" && form == EmptyForm
    {
      isOpen, product := false, None;
      step, pincode, pincodeError, areaName, form := 1, "", "", "", EmptyForm;
    }

    /** The parent opens the dialog for a product; becoming open resets every field. */
    method Open(p: Option<ShopProduct>)
      requires Valid()
      modifies this
      ensures Valid() && isOpen && product == p
      ensures !old(isOpen) ==> step == 1 && pincode == "" && pincodeError == "" && areaName == "" && form == EmptyForm
      ensures old(isOpen) ==>
        step == old(step) && pincode == old(pincode) && pincodeError == old(pincodeError)
        && areaName == old(areaName) && form == old(form)
    {
      if !isOpen {
        step, pincode, pincodeError, areaName, form := 1, "", "", "", EmptyForm;
      }
      isOpen, product := true, p;
    }

    /** The parent closes the dialog; the fields keep their values until it is opened again. */
    method Close()
      modifies this`isOpen
      ensures !isOpen && !Renders()
    {
      isOpen := false;
    }

    /** Typing in the PIN code field keeps only the digits and clears the error. */
    method EditPincode(typed: string)
      requires Valid() && Renders() && step == 1
      modifies this`pincode, this`pincodeError
      ensures Valid()
      ensures pincode == DigitsOnly(typed) && pincodeError == ""
      ensures AllDigits(typed) ==> pincode == typed
    {
      pincode, pincodeError := DigitsOnly(typed), "";
    }

    /**
     * `checkPincode`. `lookup` is what the deliverability check answered,
     * or None when the request failed. Returns whether a request was made.
     */
    method CheckPincode(lookup: Option<Availability>) returns (queried: bool)
      requires Valid() && Renders() && step == 1
      modifies this`step, this`pincodeError, this`areaName
      ensures Valid()
      ensures queried <==> |pincode| == 6
      ensures !queried ==> step == 1 && pincodeError == InvalidPincode && areaName == old(areaName)
      ensures queried && lookup.Some? && lookup.value.Available? ==>
        step == 2 && pincodeError == "" && areaName == OrElse(lookup.value.area, pincode)
      ensures queried && lookup == Some(NotAvailable) ==>
        step == 1 && pincodeError == NotAvailableMessage(pincode) && areaName == old(areaName)
      ensures queried && lookup.None? ==> step == 1 && pincodeError == LookupFailed && areaName == old(areaName)
      ensures OffersTransportLink() <==> queried && lookup == Some(NotAvailable)
    {
      OtherErrorsLackMarker();
      if |pincode| != 6 {
        pincodeError := InvalidPincode;
        return false;
      }
      pincodeError := "";
      match lookup {
        case None =>
          pincodeError := LookupFailed;
        case Some(Available(area)) =>
          areaName := OrElse(area, pincode);
          step := 2;
        case Some(NotAvailable) =>
          pincodeError := NotAvailableMessage(pincode);
      }
      return true;
    }

    /** "Change": back to step 1 with the PIN code kept. */
    method ChangePincode()
      requires Valid() && Renders() && step == 2
      modifies this`step
      ensures Valid() && step == 1
    {
      step := 1;
    }

    /** Typing in the step-2 fields. */
    method EditDetails(f: OrderForm)
      requires Valid() && Renders() && step == 2
      modifies this`form
      ensures Valid() && form == f
    {
      form := f;
    }

    /**
     * `handleSubmit`: the WhatsApp URL with the order summary, after which
     * the dialog closes.
     */
    method Submit() returns (url: string)
      requires Valid() && Renders() && step == 2
      modifies this`isOpen
      ensures !isOpen
      ensures StartsWith(url, OrderBase)
      ensures url[|OrderBase|..] == Summary(product.value, form, pincode, areaName)
      ensures Contains(url, "*Pincode:* " + pincode + " (" + areaName + ")")
    {
      var summary := Summary(product.value, form, pincode, areaName);
      SummaryHasRequiredLines(product.value, form, pincode, areaName);
      var pinLine := "*Pincode:* " + pincode + " (" + areaName + ")";
      assert pinLine in RequiredHead(product.value) + RequiredTail(form, pincode, areaName);
      ContainsAfterPrefix(OrderBase, summary, pinLine);
      url := OrderBase + summary;
      isOpen := false;
    }
  }
}
