/**
 * The relational tables behind the backend controllers: products, orders (with their
 * items), users, carts and cart items, each a map from its autoincrement id to its row.
 */
module Db {
  import opened Common

  datatype Product = Product(
    name: string,
    description: string,
    price: int,
    stock: int,
    totalSold: int,
    imageUrl: string,
    isFeatured: bool)

  datatype OrderStatus = PENDING | APPROVED | DELIVERED | CANCELLED

  /** A line of an order: a snapshot of the product id, quantity and price at order time. */
  datatype OrderItem = OrderItem(productId: int, quantity: int, price: int)

  datatype Order = Order(
    userId: Option<int>,
    status: OrderStatus,
    total: int,
    paymentMethod: string,
    shippingAddress: Option<string>,
    contactNumber: Option<string>,
    paymentProof: Option<string>,
    deliveryTime: Option<string>,
    declineReason: Option<string>,
    createdAt: int,    // milliseconds since the epoch
    items: seq<OrderItem>)

  datatype User = User(email: string, password: string, name: string, role: string)

  datatype CartItem = CartItem(cartId: int, productId: int, quantity: int)

  class Database {
    var products: map<int, Product>
    var orders: map<int, Order>
    var users: map<int, User>
    /** Cart id to the id of the user owning it; `userId` is unique in the cart table. */
    var carts: map<int, int>
    var cartItems: map<int, CartItem>
    var nextProductId: int
    var nextOrderId: int
    var nextUserId: int
    var nextCartId: int
    var nextCartItemId: int

    /** Ids are positive and below the next id to hand out; unique keys and cart-item references hold. */
    ghost predicate Valid()
      reads this
    {
      ProductsValid() && OrdersValid() && UsersValid() && CartsValid()
    }

    ghost predicate ProductsValid()
      reads this`products, this`nextProductId
    {
      1 <= nextProductId && forall id :: id in products ==> 1 <= id < nextProductId
    }

    ghost predicate OrdersValid()
      reads this`orders, this`nextOrderId
    {
      1 <= nextOrderId && forall id :: id in orders ==> 1 <= id < nextOrderId
    }

    /** User ids are in range and no two users share an email. */
    ghost predicate UsersValid()
      reads this`users, this`nextUserId
    {
      && 1 <= nextUserId
      && (forall id :: id in users ==> 1 <= id < nextUserId)
      && (forall u1, u2 :: u1 in users && u2 in users && users[u1].email == users[u2].email ==> u1 == u2)
    }

    /** Cart and cart-item ids are in range, a user has at most one cart, and every item's cart exists. */
    ghost predicate CartsValid()
      reads this`carts, this`nextCartId, this`cartItems, this`nextCartItemId
    {
      && 1 <= nextCartId && 1 <= nextCartItemId
      && (forall id :: id in carts ==> 1 <= id < nextCartId)
      && (forall id :: id in cartItems ==> 1 <= id < nextCartItemId)
      && (forall c1, c2 :: c1 in carts && c2 in carts && carts[c1] == carts[c2] ==> c1 == c2)
      && (forall i :: i in cartItems ==> cartItems[i].cartId in carts)
    }

    constructor ()
      ensures Valid()
      ensures products == map[] && orders == map[] && users == map[] && carts == map[] && cartItems == map[]
    {
      products, orders, users, carts, cartItems := map[], map[], map[], map[], map[];
      nextProductId, nextOrderId, nextUserId, nextCartId, nextCartItemId := 1, 1, 1, 1, 1;
    }
  }

  /** The user `uid` owns a cart. */
  predicate HasCart(carts: map<int, int>, uid: int) {
    exists c :: c in carts && carts[c] == uid
  }

  /** The cart of a user who has one (unique by the table's key). */
  ghost function CartOf(carts: map<int, int>, uid: int): (c: int)
    requires HasCart(carts, uid)
    ensures c in carts && carts[c] == uid
  {
    var c :| c in carts && carts[c] == uid; c
  }
}
