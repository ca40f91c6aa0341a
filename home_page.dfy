/**
 * The landing page: the first four categories and products, and the
 * deliverability check box with its result message.
 */
module HomePage {
  import opened Wrappers
  import opened Js
  import opened Seqs
  import opened Client
  import opened Storefront
  import opened CheckPincodeRoute

  /** The check box's result line; `NoResult` shows nothing. */
  datatype PincodeResult = NoResult | Shown(kind: ToastKind, message: string)

  const Shown4 := 4
  const LookupFailed := "Unable to check. Please try again."

  function DeliverMessage(place: string): string {
    "✅ Great news! We deliver to " + place + ". Place your order via WhatsApp now!"
  }

  function NoDeliveryMessage(pincode: string): string {
    "❌ Sorry, we don't currently deliver to pincode " + pincode + ". Contact us to request delivery."
  }

  /**
   * The result line for a completed check: success naming the area (or
   * the code itself when the record has no area), or an error.
   */
  function ResultFor(pincode: string, lookup: Option<Availability>): (r: PincodeResult)
    ensures r.Shown?
    ensures r.kind == Success <==> lookup.Some? && lookup.value.Available?
    ensures lookup.Some? && lookup.value.Available? ==>
      Contains(r.message, OrElse(lookup.value.area, pincode))
    ensures lookup == Some(NotAvailable) ==> Contains(r.message, pincode)
    ensures lookup.None? ==> r.message == LookupFailed
  {
    match lookup
    case Some(Available(area)) =>
      ContainsInfix("✅ Great news! We deliver to ", OrElse(area, pincode), ". Place your order via WhatsApp now!");
      Shown(Success, DeliverMessage(OrElse(area, pincode)))
    case Some(NotAvailable) =>
      ContainsInfix("❌ Sorry, we don't currently deliver to pincode ", pincode, ". Contact us to request delivery.");
      Shown(Error, NoDeliveryMessage(pincode))
    case None => Shown(Error, LookupFailed)
  }

  class Page {
    var pincode: string
    var result: PincodeResult
    var topCategories: seq<ShopCategory>
    var topProducts: seq<ShopProduct>

    /** The code box holds only digits and at most four cards of each kind are shown. */
    predicate Valid()
      reads this
    {
      AllDigits(pincode) && |topCategories| <= Shown4 && |topProducts| <= Shown4
    }

    constructor ()
      ensures Valid() && pincode == "" && result == NoResult && topCategories == [] && topProducts == []
    {
      pincode, result, topCategories, topProducts := "", NoResult, [], [];
    }

    /** The categories request answered (None: it failed, and the list stays as it was). */
    method CategoriesLoaded(data: Option<seq<ShopCategory>>)
      requires Valid()
      modifies this`topCategories
      ensures Valid()
      ensures data.Some? ==>
        && |topCategories| == (if |data.value| < Shown4 then |data.value| else Shown4)
        && topCategories == data.value[..|topCategories|]
      ensures data.None? ==> topCategories == old(topCategories)
    {
      if data.Some? {
        topCategories := Take(data.value, Shown4);
      }
    }

    /** The products request answered (None: it failed, and the list stays as it was). */
    method ProductsLoaded(data: Option<seq<ShopProduct>>)
      requires Valid()
      modifies this`topProducts
      ensures Valid()
      ensures data.Some? ==>
        && |topProducts| == (if |data.value| < Shown4 then |data.value| else Shown4)
        && topProducts == data.value[..|topProducts|]
      ensures data.None? ==> topProducts == old(topProducts)
    {
      if data.Some? {
        topProducts := Take(data.value, Shown4);
      }
    }

    /** Typing in the code box keeps only the digits and clears the result line. */
    method EditPincode(typed: string)
      requires Valid()
      modifies this`pincode, this`result
      ensures Valid() && pincode == DigitsOnly(typed) && result == NoResult
    {
      pincode, result := DigitsOnly(typed), NoResult;
    }

    /**
     * `checkPincode`: nothing happens for a code shorter than six digits;
     * otherwise the result line reports the lookup (None: the request
     * failed). Returns whether a request was made.
     */
    method CheckPincode(lookup: Option<Availability>) returns (queried: bool)
      requires Valid()
      modifies this`result
      ensures Valid()
      ensures queried <==> |pincode| >= 6
      ensures !queried ==> result == old(result)
      ensures queried ==> result == ResultFor(pincode, lookup)
    {
      if pincode == "" || |pincode| < 6 {
        return false;
      }
      result := ResultFor(pincode, lookup);
      return true;
    }
  }
}
