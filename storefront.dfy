/**
 * What the public pages show about a product: the emoji picked from the
 * product's name and the WhatsApp enquiry message. The home page and the
 * catalog page each carry their own copy of these helpers; the copies
 * are identical and are modelled once here.
 */
module Storefront {
  import opened Wrappers
  import opened Js
  import opened Seqs

  /** A product as the public pages receive it. */
  datatype ShopProduct = ShopProduct(
    id: nat,
    name: string,
    categoryName: Option<string>,
    proteinPercent: Option<string>,
    size: Option<string>,
    price: Option<int>)

  /** A category as the public pages receive it. */
  datatype ShopCategory = ShopCategory(id: nat, name: string)

  /** One entry of the emoji table: a product-line name and its emoji. */
  datatype EmojiEntry = EmojiEntry(key: string, emoji: string)

  const DefaultEmoji := "🐟"

  /** The emoji table, in declaration order (the order `Object.entries` visits it). */
  const ProductEmojis: seq<EmojiEntry> := [
    EmojiEntry("Floating Fish Feed", "🐟"),
    EmojiEntry("Sinking Fish Feed", "🐠"),
    EmojiEntry("Shrimp Feed", "🦐"),
    EmojiEntry("Starter Feed", "🐟"),
    EmojiEntry("Grower Feed", "🐡"),
    EmojiEntry("Finisher Feed", "🐠")
  ]

  /** The word a table key is matched by: its first word, lower-cased. */
  function Keyword(key: string): string {
    ToLower(FirstWord(ToLower(key)))
  }

  /** The lower-cased name includes the entry's keyword. */
  predicate KeyMatches(name: string, e: EmojiEntry) {
    Contains(ToLower(name), Keyword(e.key))
  }

  /** The emoji of the first entry whose keyword occurs in the name, or the default fish. */
  function EmojiFor(name: string): (r: string)
    ensures (forall k :: 0 <= k < |ProductEmojis| ==> !KeyMatches(name, ProductEmojis[k])) ==> r == DefaultEmoji
    ensures forall k :: 0 <= k < |ProductEmojis| && KeyMatches(name, ProductEmojis[k])
                        && (forall j :: 0 <= j < k ==> !KeyMatches(name, ProductEmojis[j])) ==>
                        r == ProductEmojis[k].emoji
  {
    match FirstIndex(ProductEmojis, e => KeyMatches(name, e))
    case None => DefaultEmoji
    case Some(k) => ProductEmojis[k].emoji
  }

  /** `getEmoji`: walk the table in order and return at the first match. */
  method GetEmoji(name: string) returns (emoji: string)
    ensures emoji == EmojiFor(name)
  {
    var i := 0;
    while i < |ProductEmojis|
      invariant 0 <= i <= |ProductEmojis|
      invariant forall j :: 0 <= j < i ==> !KeyMatches(name, ProductEmojis[j])
    {
      if KeyMatches(name, ProductEmojis[i]) {
        return ProductEmojis[i].emoji;
      }
      i := i + 1;
    }
    return DefaultEmoji;
  }

  /** The lookup ignores the case of the product name. */
  lemma EmojiIgnoresCase(name: string)
    ensures EmojiFor(ToLower(name)) == EmojiFor(name)
  {
    ToLowerIdempotent(name);
    assert forall k :: 0 <= k < |ProductEmojis| ==> (KeyMatches(ToLower(name), ProductEmojis[k]) <==> KeyMatches(name, ProductEmojis[k]));
  }

  const Greeting := "Hello! I'm interested in ordering *"
  const Closing := ". Please share more details."
  const WhatsAppBase := "https://wa.me/917865055431?text="

  /** The size clause: present only for a truthy size. */
  function SizeClause(size: Option<string>): (r: string)
    ensures r == "" <==> !Present(size)
    ensures Present(size) ==> r == " (Size: " + size.value + ")"
  {
    if Present(size) then " (Size: " + size.value + ")" else ""
  }

  /** The price clause: present only for a truthy price. */
  function PriceClause(price: Option<int>): (r: string)
    ensures r == "" <==> !IntTruthy(price)
    ensures IntTruthy(price) ==> r == " - Price: ₹" + IntToString(price.value) + "/kg"
  {
    if IntTruthy(price) then " - Price: ₹" + IntToString(price.value) + "/kg" else ""
  }

  /** The enquiry text of `getWhatsAppLink`: greeting, starred name, the optional clauses, closing. */
  function InterestMessage(p: ShopProduct): (r: string)
    ensures StartsWith(r, Greeting + p.name + "*")
    ensures |r| == |Greeting| + |p.name| + 1 + |SizeClause(p.size)| + |PriceClause(p.price)| + |Closing|
  {
    Greeting + p.name + "*" + SizeClause(p.size) + PriceClause(p.price) + Closing
  }

  /**
   * The message is the bare greeting-and-name message exactly when the
   * product has neither a truthy size nor a truthy price.
   */
  lemma BareMessageIffNoClauses(p: ShopProduct)
    ensures InterestMessage(p) == InterestMessage(p.(size := None, price := None)) <==> !Present(p.size) && !IntTruthy(p.price)
  {
    if !Present(p.size) && !IntTruthy(p.price) {
      assert InterestMessage(p) == Greeting + p.name + "*" + Closing;
    }
  }

  /** `getWhatsAppLink`: the chat URL carrying the message (its URL encoding is not modelled). */
  function WhatsAppLink(p: ShopProduct): (r: string)
    ensures StartsWith(r, WhatsAppBase) && r[|WhatsAppBase|..] == InterestMessage(p)
  {
    WhatsAppBase + InterestMessage(p)
  }
}
