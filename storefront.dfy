/** The storefront's one-click add (`quickAddToCart` in js/products.js): the
    product card's cart button adds one unit of the product in its first
    active size, without toppings. */
module Storefront {
  import opened Common
  import Catalogue
  import Cart

  /** `sizes.length > 0 ? sizes[0] : null`, then `defaultSize?.id || null`:
      the id of the first active size, absent when there is no active size or
      its id is empty. */
  function DefaultSizeId(activeSizes: seq<Cart.Size>): (r: Option<string>)
    ensures r.Some? <==> activeSizes != [] && activeSizes[0].id != ""
    ensures r.Some? ==> r.value == activeSizes[0].id
  {
    if activeSizes == [] then None else NonEmpty(Some(activeSizes[0].id))
  }

  /** The success notice naming the product. */
  function AddedNotice(productName: string): string
  {
    "Đã thêm " + productName + " vào giỏ hàng!"
  }

  /** `quickAddToCart`. An unknown product does nothing and shows nothing.
      A known product is added exactly as `addToCart(productId, DefaultSizeId,
      [], 1)` adds it, and the success notice is shown whatever `addToCart`
      reported, even when it refused a visitor who is not logged in. */
  method QuickAddToCart(store: Cart.CartStore, products: seq<Catalogue.Product>, activeSizes: seq<Cart.Size>,
                        sizeOf: string -> Option<Cart.Size>, toppingsOf: seq<string> -> seq<Cart.Topping>,
                        productId: string, freshId: string) returns (notice: Option<string>)
    modifies store
    ensures store.user == old(store.user)
    ensures Catalogue.GetProductById(products, productId).None? ==> notice.None? && store.carts == old(store.carts)
    ensures Catalogue.GetProductById(products, productId).Some? ==>
      var product := Catalogue.GetProductById(products, productId).value;
      && notice == Some(AddedNotice(product.name))
      && (store.user.None? ==> store.carts == old(store.carts))
      && (store.user.Some? ==>
            var item := Cart.NewLineItem(freshId, product, Cart.ResolveSize(DefaultSizeId(activeSizes), sizeOf),
                                         [], toppingsOf([]), 1);
            store.carts == old(store.carts)[store.user.value := Cart.CartAfterAdd(old(store.GetCart()), item)])
  {
    var product := Catalogue.GetProductById(products, productId);
    if product.None? {
      return None;
    }
    var sizeId := DefaultSizeId(activeSizes);
    var _ := store.AddToCart(products, sizeOf, toppingsOf, productId, sizeId, [], 1, freshId);
    return Some(AddedNotice(product.value.name));
  }
}
