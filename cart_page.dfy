/**
 * The cart page: the displayed totals, the quantity buttons and `handleCheckout`, which
 * validates the payment details, uploads a GCash proof, posts the order and clears the cart
 * only once the order is accepted. The upload and the order request are parameters.
 */
module CartPage {
  import opened Common
  import opened Text
  import opened CartStore
  import Routes

  /** Flat shipping fee added to every order. */
  const Shipping := 50

  const LoginFirst := "Please login to proceed to checkout"
  const ProofMissing := "Please upload payment proof"
  const UploadFailed := "Failed to upload proof. Please try again."
  const DetailsMissing := "Please fill in all delivery details"
  const OrderFailed := "Failed to place order. Please try again."
  const OrderHistory := "/order-history"

  datatype PaymentMethod = Cod | Gcash

  /** The selector's value, as held in the page state. */
  function MethodName(m: PaymentMethod): string {
    match m
    case Cod => "cod"
    case Gcash => "gcash"
  }

  /** `paymentMethod.toUpperCase()`. */
  function UpperName(m: PaymentMethod): string {
    match m
    case Cod => "COD"
    case Gcash => "GCASH"
  }

  /** The cash-on-delivery form; the delivery time starts as "ASAP". */
  datatype CodDetails = CodDetails(address: string, contact: string, deliveryTime: string)

  /** The JSON body posted to `/orders`; an absent field is `undefined` and is not sent. */
  datatype OrderPayload = OrderPayload(
    items: seq<CartLine>,
    total: int,
    paymentMethod: string,
    userId: Option<int>,
    shippingAddress: Option<string>,
    contactNumber: Option<string>,
    deliveryTime: Option<string>,
    paymentProof: Option<string>)

  /**
   * The body `handleCheckout` posts: the lines as they are, their total plus shipping, and the
   * delivery fields only for cash on delivery.
   */
  function Payload(items: seq<CartLine>, m: PaymentMethod, userId: Option<int>, cod: CodDetails, proofUrl: string): (r: OrderPayload)
    ensures r.items == items && r.total == LinesTotal(items) + Shipping && r.userId == userId
    ensures r.paymentMethod == UpperName(m)
    ensures r.shippingAddress.Some? <==> m.Cod?
    ensures r.contactNumber.Some? <==> m.Cod?
    ensures r.deliveryTime.Some? <==> m.Cod?
    ensures m.Cod? ==>
              && r.shippingAddress == Some(cod.address) && r.contactNumber == Some(cod.contact)
              && r.deliveryTime == Some(cod.deliveryTime)
    ensures r.paymentProof.Some? <==> proofUrl != ""
    ensures proofUrl != "" ==> r.paymentProof == Some(proofUrl)
  {
    OrderPayload(items, LinesTotal(items) + Shipping, UpperName(m), userId,
                 if m.Cod? then Some(cod.address) else None,
                 if m.Cod? then Some(cod.contact) else None,
                 if m.Cod? then Some(cod.deliveryTime) else None,
                 if proofUrl != "" then Some(proofUrl) else None)
  }

  /** The method sent is the selector's value upper-cased: lower-casing it gives that value back. */
  lemma PaymentMethodReadsBack(items: seq<CartLine>, m: PaymentMethod, userId: Option<int>, cod: CodDetails, proofUrl: string)
    ensures ToLower(Payload(items, m, userId, cod, proofUrl).paymentMethod) == MethodName(m)
  {
    var u := UpperName(m);
    assert ToLower(u) == [LowerChar(u[0])] + ToLower(u[1..]);
  }

  /** The minus button: one less, but never below 1. */
  function MinusQuantity(q: int): (r: int)
    ensures r >= 1
    ensures q > 1 ==> r == q - 1
    ensures q <= 1 ==> r == 1
  {
    if q - 1 > 1 then q - 1 else 1
  }

  /**
   * The page's buttons never ask a guest cart for a quantity below 1: after the minus or the
   * plus button every quantity stays positive, even though the store itself would keep a 0.
   */
  lemma ButtonsKeepQuantitiesPositive(items: seq<CartLine>, pid: int, q: int)
    requires PositiveQuantities(items)
    ensures PositiveQuantities(GuestUpdate(items, pid, MinusQuantity(q)))
    ensures q >= 1 ==> PositiveQuantities(GuestUpdate(items, pid, q + 1))
  {
  }

  class CheckoutPage {
    var loading: bool
    var uploading: bool
    const cart: CartStore

    constructor(cart: CartStore)
      ensures !loading && !uploading && this.cart == cart
    {
      loading := false;
      uploading := false;
      this.cart := cart;
    }

    /**
     * `handleCheckout`, with `hasProof` for a chosen proof file, `uploaded` for the upload's
     * file URL (`None` when it fails) and `placed` for the new order's id (`None` when the
     * order request fails). Returns the order posted, the toast shown and the navigation.
     */
    method HandleCheckout(isAuthenticated: bool, userId: Option<int>, m: PaymentMethod, cod: CodDetails,
                          hasProof: bool, uploaded: Option<string>, placed: Option<int>)
      returns (posted: Option<OrderPayload>, toast: Option<string>, navigateTo: Option<string>)
      modifies this, cart
      ensures |old(cart.items)| == 0 ==> posted.None? && toast.None? && navigateTo.None? && unchanged(this) && unchanged(cart)
      ensures |old(cart.items)| > 0 && !isAuthenticated ==>
                posted.None? && toast == Some(LoginFirst) && navigateTo == Some(Routes.Login) && unchanged(this) && unchanged(cart)
      ensures |old(cart.items)| > 0 && isAuthenticated ==> !loading && (old(!uploading) ==> !uploading)
      ensures posted.Some? <==>
                && |old(cart.items)| > 0 && isAuthenticated
                && (m.Gcash? ==> hasProof && uploaded.Some?)
                && (m.Cod? ==> cod.address != "" && cod.contact != "")
      ensures posted.Some? ==> posted.value == Payload(old(cart.items), m, userId, cod, if m.Gcash? then uploaded.value else "")
      ensures isAuthenticated && |old(cart.items)| > 0 && m.Gcash? && !hasProof ==> toast == Some(ProofMissing)
      ensures isAuthenticated && |old(cart.items)| > 0 && m.Gcash? && hasProof && uploaded.None? ==> toast == Some(UploadFailed)
      ensures isAuthenticated && |old(cart.items)| > 0 && m.Cod? && (cod.address == "" || cod.contact == "") ==> toast == Some(DetailsMissing)
      ensures posted.Some? && placed.None? ==> toast == Some(OrderFailed) && navigateTo.None?
      ensures posted.Some? && placed.Some? ==>
                toast == Some("Order Placed Successfully! ID: " + IntToString(placed.value)) && navigateTo == Some(OrderHistory)
      ensures cart.items == (if posted.Some? && placed.Some? then [] else old(cart.items))
    {
      posted, toast, navigateTo := None, None, None;
      if |cart.items| == 0 {
        return;
      }
      if !isAuthenticated {
        toast, navigateTo := Some(LoginFirst), Some(Routes.Login);
        return;
      }
      loading := true;
      var proofUrl := "";
      if m.Gcash? {
        if !hasProof {
          toast := Some(ProofMissing);
          loading := false;
          return;
        }
        uploading := true;
        if uploaded.None? {
          toast := Some(UploadFailed);
          uploading := false;
          loading := false;
          return;
        }
        proofUrl := uploaded.value;
        uploading := false;
      } else if cod.address == "" || cod.contact == "" {
        toast := Some(DetailsMissing);
        loading := false;
        return;
      }
      posted := Some(Payload(cart.items, m, userId, cod, proofUrl));
      if placed.Some? {
        toast := Some("Order Placed Successfully! ID: " + IntToString(placed.value));
        cart.ClearCart();
        navigateTo := Some(OrderHistory);
      } else {
        toast := Some(OrderFailed);
      }
      loading := false;
    }
  }
}
