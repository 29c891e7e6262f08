/**
 * The product page: a quantity stepper starting at 1 and bounded by the stock, and the
 * add-to-cart guards (signed in, product loaded, quantity within stock). The item handed to
 * the cart store carries the product id under the key `id`.
 */
module ProductDetails {
  import opened Common
  import Routes

  /** The product as the page fetched it. */
  datatype PageProduct = PageProduct(id: int, name: string, description: string, price: int, imageUrl: string, stock: int)

  /** What `addItem` receives from this page: the product's id under `id`, no `productId` key. */
  datatype HandedItem = HandedItem(id: int, name: string, price: int, imageUrl: string, quantity: int)

  datatype AddOutcome =
    | RedirectToLogin(to: string, from: string)  // navigate to the login page, remembering this page
    | NoProduct                                  // nothing loaded: do nothing
    | OverStock                                  // alert, add nothing
    | Add(item: HandedItem)                      // hand the item to the cart store

  class QuantityStepper {
    var quantity: int

    /** The stepper starts at 1. */
    constructor()
      ensures quantity == 1
    {
      quantity := 1;
    }

    /** The minus button: one less, never below 1. */
    method Decrement()
      modifies this
      ensures quantity >= 1
      ensures old(quantity) > 1 ==> quantity == old(quantity) - 1
      ensures old(quantity) <= 1 ==> quantity == 1
    {
      quantity := if quantity - 1 > 1 then quantity - 1 else 1;
    }

    /**
     * The plus button: one more, never above the stock. With stock ≥ 1 the quantity stays
     * within [1, stock]; with stock 0 it becomes 0 (the add button is then disabled).
     */
    method Increment(stock: int)
      modifies this
      ensures quantity <= stock
      ensures old(quantity) < stock ==> quantity == old(quantity) + 1
      ensures old(quantity) >= stock ==> quantity == stock
      ensures 1 <= old(quantity) <= stock ==> 1 <= quantity <= stock
    {
      quantity := if stock < quantity + 1 then stock else quantity + 1;
    }
  }

  /** `handleAddToCart`, checked in the order the page checks. */
  function HandleAddToCart(isAuthenticated: bool, routeId: string, product: Option<PageProduct>, quantity: int): (r: AddOutcome)
    ensures !isAuthenticated ==> r == RedirectToLogin(Routes.Login, "/products/" + routeId)
    ensures isAuthenticated && product.None? ==> r == NoProduct
    ensures isAuthenticated && product.Some? && quantity > product.value.stock ==> r == OverStock
    ensures r.Add? <==> isAuthenticated && product.Some? && quantity <= product.value.stock
    ensures r.Add? ==> r.item.id == product.value.id && r.item.quantity == quantity
  {
    if !isAuthenticated then RedirectToLogin(Routes.Login, "/products/" + routeId)
    else if product.None? then NoProduct
    else if quantity > product.value.stock then OverStock
    else
      var p := product.value;
      Add(HandedItem(p.id, p.name, p.price, p.imageUrl, quantity))
  }

  /**
   * A quantity the stepper can reach (1 ≤ q ≤ stock) is never refused for stock: a signed-in
   * user with the product loaded always adds exactly that quantity.
   */
  lemma StepperQuantityIsAddable(routeId: string, p: PageProduct, q: int)
    requires 1 <= q <= p.stock
    ensures HandleAddToCart(true, routeId, Some(p), q) == Add(HandedItem(p.id, p.name, p.price, p.imageUrl, q))
  {
  }
}
