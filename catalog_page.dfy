/**
 * The public product catalog: every product, or only those of the
 * selected category. The selection starts from the `categoryId` query
 * parameter and is changed by the filter buttons.
 */
module CatalogPage {
  import opened Wrappers
  import opened Js
  import opened Seqs
  import opened Storefront

  /** `categoryId ? Number(categoryId) : null`. */
  function InitialSelection(param: Option<string>): (r: Option<JsNumber>)
    ensures r.None? <==> !Present(param)
  {
    if Present(param) then Some(ParseNumeral(param.value)) else None
  }

  /** A link carrying a category's id in its query selects that category, as its button does. */
  lemma LinkSelectsCategory(c: ShopCategory)
    ensures InitialSelection(Some(IntToString(c.id))) == Some(Finite(c.id))
  {
    NumberOfString(c.id);
  }

  /** The selection is truthy: a number other than 0 and NaN. */
  predicate Selects(selected: Option<JsNumber>) {
    selected.Some? && NumberTruthy(selected.value)
  }

  predicate HasId(c: ShopCategory, id: int) {
    c.id == id
  }

  /** `categories.find(c => c.id === selected)?.name`. */
  function SelectedName(categories: seq<ShopCategory>, id: int): (r: Option<string>)
    ensures r.None? <==> forall k :: 0 <= k < |categories| ==> categories[k].id != id
    ensures r.Some? ==> exists k :: 0 <= k < |categories| && categories[k].id == id && categories[k].name == r.value
  {
    match Find(categories, c => HasId(c, id))
    case None => None
    case Some(c) => Some(c.name)
  }

  predicate InNamedCategory(p: ShopProduct, name: Option<string>) {
    p.categoryName == name
  }

  /**
   * `filtered`: without a truthy selection every product; otherwise the
   * products whose category name equals the selected category's name
   * (both absent when no category has the selected id).
   */
  function Filtered(products: seq<ShopProduct>, categories: seq<ShopCategory>, selected: Option<JsNumber>): (r: seq<ShopProduct>)
    ensures !Selects(selected) ==> r == products
    ensures Selects(selected) ==>
      var name := SelectedName(categories, selected.value.value);
      && (forall i :: 0 <= i < |r| ==> r[i] in products && r[i].categoryName == name)
      && (forall i :: 0 <= i < |products| && products[i].categoryName == name ==> products[i] in r)
  {
    if Selects(selected) then
      var name := SelectedName(categories, selected.value.value);
      Filter(products, p => InNamedCategory(p, name))
    else products
  }

  /**
   * With category ids unique, choosing a listed category shows exactly the
   * products filed under that category's name, in list order.
   */
  lemma {:induction false} ChosenCategoryShowsItsProducts(products: seq<ShopProduct>, categories: seq<ShopCategory>, k: nat)
    requires k < |categories| && categories[k].id != 0
    requires forall i, j :: 0 <= i < j < |categories| ==> categories[i].id != categories[j].id
    ensures Filtered(products, categories, Some(Finite(categories[k].id))) ==
      Filter(products, p => InNamedCategory(p, Some(categories[k].name)))
  {
    var id := categories[k].id;
    var i := FirstIndex(categories, c => HasId(c, id));
    assert i.Some? && i.value <= k;
    assert i.value == k;
    assert SelectedName(categories, id) == Some(categories[k].name);
  }

  class Page {
    var products: seq<ShopProduct>
    var categories: seq<ShopCategory>
    var selected: Option<JsNumber>

    constructor (param: Option<string>)
      ensures products == [] && categories == [] && selected == InitialSelection(param)
    {
      products, categories, selected := [], [], InitialSelection(param);
    }

    /** The query-parameter effect: a present parameter selects its number again. */
    method ParamChanged(param: Option<string>)
      modifies this`selected
      ensures Present(param) ==> selected == InitialSelection(param)
      ensures !Present(param) ==> selected == old(selected)
    {
      if Present(param) {
        selected := Some(ParseNumeral(param.value));
      }
    }

    /** "All Products". */
    method SelectAll()
      modifies this`selected
      ensures selected.None? && Shown() == products
    {
      selected := None;
    }

    /** A category's filter button. */
    method SelectCategory(c: ShopCategory)
      modifies this`selected
      ensures selected == Some(Finite(c.id))
    {
      selected := Some(Finite(c.id));
    }

    /** The products request answered; a failed request leaves the list as it was. */
    method ProductsLoaded(data: Option<seq<ShopProduct>>)
      modifies this`products
      ensures products == if data.Some? then data.value else old(products)
    {
      if data.Some? {
        products := data.value;
      }
    }

    /** The categories request answered; a failed request leaves the list as it was. */
    method CategoriesLoaded(data: Option<seq<ShopCategory>>)
      modifies this`categories
      ensures categories == if data.Some? then data.value else old(categories)
    {
      if data.Some? {
        categories := data.value;
      }
    }

    /** The products on screen. */
    function Shown(): seq<ShopProduct>
      reads this
    {
      Filtered(products, categories, selected)
    }
  }
}
