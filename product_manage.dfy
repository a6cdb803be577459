/** The admin product list: add through a prompt, delete after a confirm, and the row menu that is open. */
module ProductManage {
  import opened Builtins
  import opened Types
  import MockApi

  /** The product created for a name typed into the prompt; `id` stands for `Date.now()`. */
  function NewProduct(id: string, name: string): (p: Product)
    ensures p.id == id && p.name == name
    ensures p.category == "미분류" && p.standard == "표준 없음" && p.status == Active && p.imageUrl.None?
  {
    Product(id, name, "미분류", "표준 없음", Active, None)
  }

  /** `if (name)`: a cancelled prompt (`null`) and an empty answer are both rejected. */
  predicate AcceptsName(name: Option<string>)
  {
    name.Some? && name.value != ""
  }

  /** The filter predicate `p => p.id !== id`. */
  function KeepOthers(id: string): Product -> bool
  {
    (p: Product) => p.id != id
  }

  /** The product list with every product of the given id removed, the others kept in order. */
  function WithoutId(products: seq<Product>, id: string): (r: seq<Product>)
    ensures forall p :: p in r ==> p in products && p.id != id
    ensures forall p :: p in products && p.id != id ==> p in r
    ensures |r| <= |products|
  {
    Filter(products, KeepOthers(id))
  }

  /** Deleting keeps the remaining products in their original order: it works piecewise on any split of the list. */
  lemma WithoutIdSplits(a: seq<Product>, b: seq<Product>, id: string)
    ensures WithoutId(a + b, id) == WithoutId(a, id) + WithoutId(b, id)
  {
    FilterAppend(a, b, KeepOthers(id));
  }

  /** Deleting an id no product has leaves the list as it was. */
  lemma WithoutAbsentId(products: seq<Product>, id: string)
    requires forall k :: 0 <= k < |products| ==> products[k].id != id
    ensures WithoutId(products, id) == products
  {
    FilterKeepsAll(products, KeepOthers(id));
  }

  /** Deleting the id just given to a new product removes the new product and every older product
      that happens to share its id, and nothing else. */
  lemma DeleteUndoesAdd(products: seq<Product>, id: string, name: string)
    ensures WithoutId(products + [NewProduct(id, name)], id) == WithoutId(products, id)
  {
    WithoutIdSplits(products, [NewProduct(id, name)], id);
    assert WithoutId([NewProduct(id, name)], id) == [];
  }

  /** The open row menu after a click on row `id`'s menu button: clicking the open menu closes it,
      clicking any other row's button opens that row's menu instead. */
  function ToggledMenu(open: Option<string>, id: string): (r: Option<string>)
    ensures r.None? <==> open == Some(id)
    ensures r.Some? ==> r.value == id
  {
    if open == Some(id) then None else Some(id)
  }

  /** Toggling the same row twice returns to where it started when the menu was closed or already
      on that row; from another row's open menu it ends closed instead. */
  lemma ToggleMenuTwice(open: Option<string>, id: string)
    ensures open.None? || open == Some(id) ==> ToggledMenu(ToggledMenu(open, id), id) == open
    ensures open.Some? && open.value != id ==> ToggledMenu(ToggledMenu(open, id), id).None?
  {
  }

  /** The page's two state cells. */
  class ProductList {
    var products: seq<Product>
    var openMenuId: Option<string>

    constructor ()
      ensures products == MockApi.MockProducts && openMenuId.None?
    {
      products := MockApi.MockProducts;
      openMenuId := None;
    }

    /** `handleAddProduct`: `promptResult` is what `window.prompt` returned, `newId` the timestamp id. */
    method AddProduct(promptResult: Option<string>, newId: string)
      modifies this`products
      ensures AcceptsName(promptResult) ==> products == old(products) + [NewProduct(newId, promptResult.value)]
      ensures !AcceptsName(promptResult) ==> products == old(products)
    {
      if promptResult.Some? && promptResult.value != "" {
        var newProduct := NewProduct(newId, promptResult.value);
        products := products + [newProduct];
      }
    }

    /** `handleDeleteProduct`: `confirmed` is what `window.confirm` returned. */
    method DeleteProduct(id: string, confirmed: bool)
      modifies this
      ensures confirmed ==> products == WithoutId(old(products), id) && openMenuId.None?
      ensures !confirmed ==> products == old(products) && openMenuId == old(openMenuId)
    {
      if confirmed {
        products := WithoutId(products, id);
        openMenuId := None;
      }
    }

    /** A click on row `id`'s menu button. */
    method ToggleMenu(id: string)
      modifies this`openMenuId
      ensures openMenuId == ToggledMenu(old(openMenuId), id)
    {
      openMenuId := if openMenuId == Some(id) then None else Some(id);
    }
  }
}
